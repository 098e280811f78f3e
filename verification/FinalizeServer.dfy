/** One finalize request as the code runs it, with nobody else at the tables. */
module FinalizeServer {
  import opened AcmeTables
  import opened FinalizeAnswers
  import opened OrderMachine
  import opened Sweeps

  /** The CA handler, or the reuse of a stored certificate: an exception, or an answer. */
  datatype CaOutcome = CaRaises | CaSays(error: string, cert: string, raw: string, pollId: string)

  datatype StoreOutcome = Stored | StoreFails | StoreRaises

  /** Everything outside the server that one finalize request meets. Hook texts are
      those of failures that are not ignored. */
  datatype Outside = Outside(
    csrAccepted: bool,
    certName: string,
    preHook: Option<string>,
    ca: CaOutcome,
    store: StoreOutcome,
    issueUts: int,
    expireUts: int,
    successHook: Option<string>,
    postHook: Option<string>,
    inTime: bool)

  /** How an enrollment thread ends: an exception leaves no result. */
  datatype ThreadEnd = Died | Returned(error: string, detail: string)

  // ---------- what an enrollment thread does ----------

  predicate GotCert(out: Outside) {
    out.preHook.None? && out.ca.CaSays? && out.ca.cert != ""
  }

  predicate NoCert(out: Outside) {
    out.preHook.None? && out.ca.CaSays? && out.ca.cert == ""
  }

  function TablesAfterThread(db: Tables, o: string, k: string, out: Outside): Tables {
    if GotCert(out) && out.store == Stored then
      SetOrder(StoreCert(db, k, out.ca.cert, out.ca.raw, out.issueUts, out.expireUts), o, Valid)
    else if NoCert(out) && out.ca.pollId == "" then SetOrder(db, o, Invalid)
    else db
  }

  function HooksDone(out: Outside, error: string, detail: string): ThreadEnd {
    if out.postHook.None? then Returned(error, detail) else Returned(SERVER_INTERNAL, UNEXPECTED_FORMAT)
  }

  function EndOfThread(c: Config, out: Outside): ThreadEnd {
    if out.preHook.Some? then Returned("pre_hook_error", out.preHook.value)
    else if out.ca.CaRaises? then Died
    else if out.ca.cert == "" then
      var r := ClientError(c.forwardDetails, out.ca.error, out.ca.pollId);
      HooksDone(out, r.0, r.1)
    else if out.store == StoreRaises then Returned(SERVER_INTERNAL, UNEXPECTED_FORMAT)
    else if out.successHook.Some? then Returned("success_hook_error", out.successHook.value)
    else HooksDone(out, "", "")
  }

  /** The request reaches the enrollment thread. */
  predicate Enrolls(c: Config, db: Tables, o: string, csr: string, out: Outside) {
    && out.csrAccepted
    && o in db.orders && CsrMatches(c, db.orders[o].identifiers, csr) && !DryRun(c, db.orders[o].profile)
  }

  /** The thread runs to its end while the request waits. */
  predicate Awaited(c: Config, out: Outside) {
    !c.asyncMode && out.inTime
  }

  predicate PollIdGiven(out: Outside) {
    NoCert(out) && out.ca.pollId != ""
  }

  /** The wait ran out, or an exception ended the thread. */
  predicate LateOrDead(c: Config, out: Outside) {
    !c.asyncMode && (!out.inTime || (out.preHook.None? && out.ca.CaRaises?))
  }

  /** The enrollment went through, as far as the request can see. */
  predicate WentThrough(c: Config, out: Outside) {
    Awaited(c, out) && GotCert(out) && out.store != StoreRaises && out.successHook.None? && out.postHook.None?
  }

  /** What the request learns from its thread. */
  function Learned(c: Config, out: Outside): (string, string) {
    if c.asyncMode then ("", ASYNC_DETAIL)
    else if LateOrDead(c, out) then (TIMEOUT, TIMED_OUT_DETAIL)
    else (EndOfThread(c, out).error, EndOfThread(c, out).detail)
  }

  function EnrollAnswer(c: Config, out: Outside): Answer {
    AnswerTo(Learned(c, out).0, Learned(c, out).1)
  }

  function WithCsrRow(db: Tables, o: string, csr: string, k: string, now: int): Tables {
    db.(certs := db.certs[k := CertRow(o, csr, "", "", 0, 0, now)])
  }

  /** The tables that the thread and the waiting request leave, given the CSR row. */
  function AfterEnrolling(c: Config, db: Tables, o: string, k: string, out: Outside): Tables {
    var after := if Awaited(c, out) then TablesAfterThread(db, o, k, out) else db;
    if WritesValid(Learned(c, out).0, Learned(c, out).1) then SetOrder(after, o, Valid) else after
  }

  function EnrollTables(c: Config, db: Tables, o: string, csr: string, out: Outside, now: int): Tables {
    AfterEnrolling(c, WithCsrRow(db, o, csr, out.certName, now), o, out.certName, out)
  }

  // ---------- what a finalize request does as a whole ----------

  /** The request wins the claim and passes the gate. */
  predicate Redeems(db: Tables, o: string, csr: Option<string>, now: int) {
    HasStatus(db, o, Ready) && csr.Some? && GateOpen(db.authzs, o, now)
  }

  /** Why a request of the owner is refused; None when the enrollment decides. */
  function Refusal(c: Config, db: Tables, o: string, csr: Option<string>, out: Outside, now: int): Option<Reply> {
    if HasStatus(db, o, Valid) && c.idempotent then Some(AlreadyValid)
    else if !HasStatus(db, o, Ready) then Some(NotReady)
    else if csr.None? then Some(CsrMissing)
    else if !GateOpen(db.authzs, o, now) then Some(NotReady)
    else if !out.csrAccepted then Some(CsrRefused)
    else if !CsrMatches(c, db.orders[o].identifiers, csr.value) then Some(CsrMismatch)
    else if DryRun(c, db.orders[o].profile) then Some(DryRunOnly)
    else None
  }

  function OrderAnswer(c: Config, db: Tables, o: string, csr: Option<string>, out: Outside, now: int): Answer {
    var r := Refusal(c, db, o, csr, out, now);
    if r.Some? then AnswerOf(r.value) else EnrollAnswer(c, out)
  }

  /** A request that is refused before its claim changes nothing; behind the claim the order
      is in processing, unless the gate is closed; the CSR row stays even if the CSR does
      not fit. */
  function OrderTables(c: Config, db: Tables, o: string, csr: Option<string>, out: Outside, now: int): Tables {
    if !HasStatus(db, o, Ready) || csr.None? then db
    else if !GateOpen(db.authzs, o, now) then SetOrder(db, o, Invalid)
    else
      var claimed, r := SetOrder(db, o, Processing), Refusal(c, db, o, csr, out, now);
      if r == Some(CsrRefused) then claimed
      else if r.Some? then WithCsrRow(claimed, o, csr.value, out.certName, now)
      else EnrollTables(c, claimed, o, csr.value, out, now)
  }

  predicate Owns(db: Tables, account: string, o: string) {
    account != "" && o in db.orders && db.orders[o].account == account
  }

  /** A read of an order promotes it exactly when it is pending and all its authorizations
      are valid. */
  function ReadOrder(db: Tables, o: string): Tables {
    if HasStatus(db, o, Pending) && AllValid(db.authzs, o) then SetOrder(db, o, Ready) else db
  }

  /** What a request for an order does before anything else: the sweep, and a read. */
  function Met(c: Config, db: Tables, o: string, now: int): Tables {
    ReadOrder(if c.expiryCheck then db.(orders := SweptOrders(db.orders, now)) else db, o)
  }

  /** Effect and answer of a finalize request of any account, on the tables it met. */
  function RequestTables(c: Config, db: Tables, account: string, o: string, csr: Option<string>, out: Outside,
                         now: int): Tables
  {
    if Owns(db, account, o) then OrderTables(c, db, o, csr, out, now) else db
  }

  function RequestAnswer(c: Config, db: Tables, account: string, o: string, csr: Option<string>, out: Outside,
                         now: int): Answer
  {
    if o !in db.orders then AnswerOf(NotFound)
    else if !Owns(db, account, o) then AnswerOf(NotOwner)
    else OrderAnswer(c, db, o, csr, out, now)
  }

  /** An order that nobody has read since its validations is served like a ready one, unless
      it has expired; and a request of any account makes it ready. */
  lemma MetIsPromoted(c: Config, db: Tables, o: string, now: int)
    requires HasStatus(db, o, Pending) && AllValid(db.authzs, o)
    ensures var m := Met(c, db, o, now);
            && (HasStatus(m, o, Ready) <==> !(c.expiryCheck && db.orders[o].expires <= now))
            && (HasStatus(m, o, Invalid) <==> c.expiryCheck && db.orders[o].expires <= now)
            && m.authzs == db.authzs && m.certs == db.certs
  {
  }

  /** So a stranger's request promotes an order although it is refused. */
  lemma StrangerPromotes(c: Config, db: Tables, account: string, o: string, csr: Option<string>, out: Outside, now: int)
    requires HasStatus(db, o, Pending) && AllValid(db.authzs, o) && !Owns(db, account, o)
    requires c.expiryCheck ==> db.orders[o].expires > now
    ensures var m := Met(c, db, o, now);
            && HasStatus(RequestTables(c, m, account, o, csr, out, now), o, Ready)
            && RequestAnswer(c, m, account, o, csr, out, now) == AnswerOf(NotOwner)
  {
    MetIsPromoted(c, db, o, now);
  }

  /** No request revives an order: what it met in another status than pending is as it was,
      or swept. */
  lemma MetMovesForward(c: Config, db: Tables, o: string, x: string, now: int)
    requires x in db.orders
    ensures var m := Met(c, db, o, now);
            && x in m.orders
            && (m.orders[x].status == db.orders[x].status
                || (m.orders[x].status == Invalid && c.expiryCheck && db.orders[x].expires <= now)
                || (m.orders[x].status == Ready && x == o && HasStatus(db, o, Pending) && AllValid(db.authzs, o)))
  {
  }

  /** What the client is told, for every behaviour of the CA, the store, the hooks and
      the clock. */
  lemma AnswerAgrees(c: Config, out: Outside)
    ensures EnrollAnswer(c, out) == Answer(200, "", "") <==> WentThrough(c, out)
    ensures WritesValid(Learned(c, out).0, Learned(c, out).1) <==> WentThrough(c, out)
    ensures LateOrDead(c, out) ==> EnrollAnswer(c, out) == Answer(200, TIMEOUT, TIMED_OUT_DETAIL)
    ensures c.asyncMode ==> EnrollAnswer(c, out) == Answer(200, "", ASYNC_DETAIL)
    ensures Awaited(c, out) && !LateOrDead(c, out) && !WentThrough(c, out) && !PollIdGiven(out) ==>
              EnrollAnswer(c, out).code >= 400
    ensures Awaited(c, out) && PollIdGiven(out) && out.postHook.None? ==>
              && (out.ca.error == TIMEOUT ==> EnrollAnswer(c, out) == Answer(200, TIMEOUT, out.ca.pollId))
              && (out.ca.error == "" && out.ca.pollId != DRYRUN_SKIPPED ==>
                    EnrollAnswer(c, out) == Answer(200, "", out.ca.pollId))
    // in all other cases the request fails
    ensures EnrollAnswer(c, out).code >= 400 <==>
              && !c.asyncMode && !LateOrDead(c, out) && !WentThrough(c, out)
              && !(PollIdGiven(out) && out.postHook.None?
                   && (out.ca.error == TIMEOUT || (out.ca.error == "" && out.ca.pollId != DRYRUN_SKIPPED)))
  {
  }

  /** The tables and the answer agree: the order of an awaited enrollment is valid
      exactly when a certificate was stored or the whole enrollment seemed to go
      through, invalid exactly when the CA gave neither a certificate nor an identifier
      to poll with, and in processing otherwise. A valid order has its certificate
      exactly when it could be stored. */
  lemma OutcomeAgrees(c: Config, db: Tables, o: string, csr: string, out: Outside, now: int)
    requires HasStatus(db, o, Processing) && out.certName !in db.certs
    ensures var e := EnrollTables(c, db, o, csr, out, now);
            && (HasStatus(e, o, Valid) <==>
                  WentThrough(c, out) || (Awaited(c, out) && GotCert(out) && out.store == Stored))
            && (HasStatus(e, o, Invalid) <==> Awaited(c, out) && NoCert(out) && out.ca.pollId == "")
            && (HasStatus(e, o, Processing) <==> !HasStatus(e, o, Valid) && !HasStatus(e, o, Invalid))
            && (HasStatus(e, o, Invalid) ==> EnrollAnswer(c, out).code >= 400)
            && (EnrollAnswer(c, out) == Answer(200, "", "") ==> HasStatus(e, o, Valid))
            && out.certName in e.certs && e.certs[out.certName].order == o
            && (HasStatus(e, o, Valid) ==> (e.certs[out.certName].cert != "" <==> out.store == Stored))
  {
    AnswerAgrees(c, out);
  }

  lemma SomeAuthz(authzs: map<string, AuthzRow>, o: string)
    ensures AuthzsOf(authzs, o) != {} <==> exists a :: a in authzs && authzs[a].order == o
  {
    if a :| a in authzs && authzs[a].order == o {
      assert a in AuthzsOf(authzs, o);
    }
  }

  /** The gate, written out. */
  lemma GateInColumns(authzs: map<string, AuthzRow>, o: string, now: int)
    ensures GateOpen(authzs, o, now) <==>
              && (exists a :: a in authzs && authzs[a].order == o)
              && forall a | a in authzs && authzs[a].order == o ::
                   && authzs[a].status == Valid
                   && (authzs[a].expires.None? || authzs[a].expires.value == 0 || authzs[a].expires.value > now)
  {
    SomeAuthz(authzs, o);
  }

  /** An order write touches no certificate row, and a certificate is stored with its own
      dates under its name. */
  lemma RowsAfterThread(db: Tables, o: string, k: string, out: Outside)
    requires k in db.certs
    ensures var e, row := TablesAfterThread(db, o, k, out), db.certs[k];
            && e.authzs == db.authzs && e.challenges == db.challenges
            && e.certs == if out.preHook.None? && out.ca.CaSays? && out.ca.cert != "" && out.store == Stored then
                            db.certs[k := CertRow(row.order, row.csr, out.ca.cert, out.ca.raw,
                                                  out.issueUts, out.expireUts, row.created)]
                          else db.certs
  {
  }

  /** The row behind an enrolled CSR: the certificate with its own dates exactly when it was
      waited for, handed out and stored. */
  lemma EnrolledRow(c: Config, db: Tables, o: string, csr: string, out: Outside, now: int)
    ensures var e := EnrollTables(c, db, o, csr, out, now);
            && e.authzs == db.authzs && e.challenges == db.challenges
            && e.certs == db.certs[out.certName :=
                 if !c.asyncMode && out.inTime && out.preHook.None? && out.ca.CaSays? && out.ca.cert != ""
                    && out.store == Stored
                 then CertRow(o, csr, out.ca.cert, out.ca.raw, out.issueUts, out.expireUts, now)
                 else CertRow(o, csr, "", "", 0, 0, now)]
  {
    var w := WithCsrRow(db, o, csr, out.certName, now);
    RowsAfterThread(w, o, out.certName, out);
    var after := if Awaited(c, out) then TablesAfterThread(w, o, out.certName, out) else w;
    assert EnrollTables(c, db, o, csr, out, now).(orders := after.orders) == after;
  }

  /** A request adds its own row or none, and a row with a certificate is that of an enrolled
      CSR whose certificate was stored. */
  lemma RowOfRequest(c: Config, db: Tables, o: string, csr: Option<string>, out: Outside, now: int)
    requires out.certName !in db.certs
    ensures var e, answer := OrderTables(c, db, o, csr, out, now), OrderAnswer(c, db, o, csr, out, now);
            && e.authzs == db.authzs && e.challenges == db.challenges
            && (out.certName !in e.certs ==> e.certs == db.certs)
            && (out.certName in e.certs && e.certs[out.certName].cert == "" ==>
                  csr.Some? && e.certs == db.certs[out.certName := CertRow(o, csr.value, "", "", 0, 0, now)])
            && (out.certName in e.certs && e.certs[out.certName].cert != "" ==>
                  && csr.Some? && out.ca.CaSays? && out.store == Stored
                  && e.certs == db.certs[out.certName := CertRow(o, csr.value, out.ca.cert, out.ca.raw,
                                                                 out.issueUts, out.expireUts, now)])
            && (answer == Answer(200, "", "") && HasStatus(db, o, Ready) && out.store == Stored ==>
                  out.certName in e.certs && e.certs[out.certName].cert != "")
  {
    if Redeems(db, o, csr, now) {
      EnrolledRow(c, SetOrder(db, o, Processing), o, csr.value, out, now);
      AnswerAgrees(c, out);
    }
  }

  lemma RowOfAnyRequest(c: Config, db: Tables, account: string, o: string, csr: Option<string>, out: Outside, now: int)
    requires out.certName !in db.certs
    ensures var m := Met(c, db, o, now);
            var e, answer := RequestTables(c, m, account, o, csr, out, now),
                             RequestAnswer(c, m, account, o, csr, out, now);
            && e.authzs == db.authzs && e.challenges == db.challenges
            && (out.certName !in e.certs ==> e.certs == db.certs)
            && (out.certName in e.certs && e.certs[out.certName].cert == "" ==>
                  csr.Some? && e.certs == db.certs[out.certName := CertRow(o, csr.value, "", "", 0, 0, now)])
            && (out.certName in e.certs && e.certs[out.certName].cert != "" ==>
                  && csr.Some? && out.ca.CaSays? && out.store == Stored
                  && e.certs == db.certs[out.certName := CertRow(o, csr.value, out.ca.cert, out.ca.raw,
                                                                 out.issueUts, out.expireUts, now)])
            && (answer == Answer(200, "", "") && HasStatus(m, o, Ready) && out.store == Stored ==>
                  out.certName in e.certs && e.certs[out.certName].cert != "")
  {
    var m := Met(c, db, o, now);
    assert m.authzs == db.authzs && m.challenges == db.challenges && m.certs == db.certs;
    RowOfRequest(c, m, o, csr, out, now);
  }

  class OrderServer {
    var db: Tables
    const c: Config

    constructor (c: Config, db: Tables)
      ensures this.c == c && this.db == db
    {
      this.c := c;
      this.db := db;
    }

    method OrderUpdate(name: string, status: Status)
      modifies this
      ensures db == SetOrder(old(db), name, status)
    {
      if name in db.orders {
        db := db.(orders := db.orders[name := db.orders[name].(status := status)]);
      }
    }

    method OrderUpdateIfStatus(name: string, to: Status, expected: Status) returns (rows: nat)
      modifies this
      ensures rows == 1 <==> HasStatus(old(db), name, expected)
      ensures rows == 0 <==> !HasStatus(old(db), name, expected)
      ensures db == if rows == 1 then SetOrder(old(db), name, to) else old(db)
    {
      rows := 0;
      if HasStatus(db, name, expected) {
        rows := 1;
        OrderUpdate(name, to);
      }
    }

    /** All rows of the authorization table with this order. */
    method AuthorizationLookup(order: string) returns (rows: seq<AuthzRow>)
      ensures forall r :: r in rows <==> exists a :: a in db.authzs && db.authzs[a].order == order && db.authzs[a] == r
    {
      rows := [];
      var todo := db.authzs.Keys;
      while todo != {}
        invariant todo <= db.authzs.Keys
        invariant forall r | r in rows :: exists a :: a in db.authzs && db.authzs[a].order == order && db.authzs[a] == r
        invariant forall a | a in db.authzs && a !in todo && db.authzs[a].order == order :: db.authzs[a] in rows
        decreases |todo|
      {
        var a :| a in todo;
        if db.authzs[a].order == order {
          rows := rows + [db.authzs[a]];
        }
        todo := todo - {a};
      }
    }

    /** The gate. */
    method AuthorizationsValidForIssuance(order: string, now: int) returns (ok: bool)
      ensures ok <==> GateOpen(db.authzs, order, now)
      // which comes to: there are some, and each is valid and not past its expiry
      ensures ok <==>
                && (exists a :: a in db.authzs && db.authzs[a].order == order)
                && forall a | a in db.authzs && db.authzs[a].order == order ::
                     && db.authzs[a].status == Valid
                     && (db.authzs[a].expires.None? || db.authzs[a].expires.value == 0
                         || db.authzs[a].expires.value > now)
    {
      GateInColumns(db.authzs, order, now);
      var rows := AuthorizationLookup(order);
      assert forall a | a in AuthzsOf(db.authzs, order) :: db.authzs[a] in rows;
      if rows == [] {
        return false;
      }
      assert AuthzsOf(db.authzs, order) != {} by {
        assert rows[0] in rows;
        var a :| a in db.authzs && db.authzs[a].order == order && db.authzs[a] == rows[0];
        assert a in AuthzsOf(db.authzs, order);
      }
      var i := 0;
      while i < |rows|
        invariant i <= |rows|
        invariant forall j | 0 <= j < i :: UsableAt(rows[j], now)
      {
        if rows[i].status != Valid {
          assert rows[i] in rows;
          return false;
        }
        var expires := rows[i].expires;
        if expires.Some? && expires.value != 0 && expires.value <= now {
          assert rows[i] in rows;
          return false;
        }
        i := i + 1;
      }
      assert forall a | a in db.authzs && db.authzs[a].order == order :: db.authzs[a] in rows;
      return true;
    }

    /** Collects the status of every authorization and promotes a pending order. */
    method UpdateValidityList(order: string, rows: seq<AuthzRow>, readStatus: Status)
      modifies this
      ensures db == if rows != [] && (forall r | r in rows :: r.status == Valid) && readStatus == Pending
                    then SetOrder(old(db), order, Ready) else old(db)
    {
      var validity: seq<bool> := [];
      var i := 0;
      while i < |rows|
        invariant i == |validity| <= |rows|
        invariant forall j | 0 <= j < i :: validity[j] == (rows[j].status == Valid)
        invariant db == old(db)
      {
        validity := validity + [rows[i].status == Valid];
        i := i + 1;
      }
      if validity != [] && false !in validity && readStatus == Pending {
        assert forall r | r in rows :: r.status == Valid by {
          forall r | r in rows ensures r.status == Valid {
            var j :| 0 <= j < |rows| && rows[j] == r;
            assert validity[j] in validity;
          }
        }
        OrderUpdate(order, Ready);
      } else if false in validity {
        var j :| 0 <= j < |validity| && validity[j] == false;
        assert rows[j] in rows && rows[j].status != Valid;
      }
    }

    /** Reading an order: promotes it exactly when it is pending and all its
        authorizations are valid. The status it shows is the one before. */
    method GetOrderDetails(order: string) returns (shown: Option<Status>)
      modifies this
      ensures db == ReadOrder(old(db), order)
      ensures db == old(db).(orders := db.orders)
      ensures db.orders ==
                if order in old(db).orders && old(db).orders[order].status == Pending
                   && (exists a :: a in db.authzs && db.authzs[a].order == order)
                   && (forall a | a in db.authzs && db.authzs[a].order == order :: db.authzs[a].status == Valid)
                then old(db).orders[order := old(db).orders[order].(status := Ready)] else old(db).orders
      ensures shown == if order in old(db).orders then Some(old(db).orders[order].status) else None
    {
      shown := None;
      SomeAuthz(db.authzs, order);
      if order in db.orders {
        var status := db.orders[order].status;
        shown := Some(status);
        var rows := AuthorizationLookup(order);
        if rows != [] {
          assert (forall r | r in rows :: r.status == Valid) <==> AllValid(db.authzs, order) by {
            assert rows[0] in rows;
            var a :| a in db.authzs && db.authzs[a].order == order && db.authzs[a] == rows[0];
            assert a in AuthzsOf(db.authzs, order);
            assert forall b | b in db.authzs && db.authzs[b].order == order :: db.authzs[b] in rows;
          }
          UpdateValidityList(order, rows, status);
        } else {
          forall a | a in db.authzs ensures db.authzs[a].order != order {
            assert db.authzs[a] in rows || db.authzs[a].order != order;
          }
        }
      }
    }

    /** Stores the certificate, marks the order, runs the success hook. */
    method StoreCertificateAndUpdateOrder(o: string, k: string, out: Outside)
        returns (early: bool, error: string, detail: string)
      requires GotCert(out)
      modifies this
      ensures db == TablesAfterThread(old(db), o, k, out)
      // row by row: the certificate with its own dates, the order marked, or nothing at all
      ensures db == old(db).(orders := db.orders, certs := db.certs)
      ensures out.store == Stored && k in old(db).certs ==>
                var row := old(db).certs[k];
                db.certs == old(db).certs[k := CertRow(row.order, row.csr, out.ca.cert, out.ca.raw,
                                                       out.issueUts, out.expireUts, row.created)]
      ensures out.store == Stored && o in old(db).orders ==>
                db.orders == old(db).orders[o := old(db).orders[o].(status := Valid)]
      ensures out.store != Stored ==> db == old(db)
      ensures early <==> out.store == StoreRaises || out.successHook.Some?
      ensures early ==> Returned(error, detail) == EndOfThread(c, out)
      ensures !early ==> error == "" && detail == ""
    {
      early, error, detail := false, "", "";
      if out.store == StoreRaises {
        return true, SERVER_INTERNAL, UNEXPECTED_FORMAT;
      }
      if out.store == Stored {
        db := StoreCert(db, k, out.ca.cert, out.ca.raw, out.issueUts, out.expireUts);
        OrderUpdate(o, Valid);
      }
      if out.successHook.Some? {
        return true, "success_hook_error", out.successHook.value;
      }
    }

    /** A CA answer without certificate: the order is lost unless it can be polled for. */
    method HandleEnrollmentError(o: string, k: string, out: Outside) returns (error: string, detail: string)
      requires NoCert(out)
      modifies this
      ensures db == TablesAfterThread(old(db), o, k, out)
      ensures db == old(db).(orders := db.orders)
      ensures db.orders == if out.ca.pollId == "" && o in old(db).orders
                           then old(db).orders[o := old(db).orders[o].(status := Invalid)] else old(db).orders
      ensures (error, detail) == ClientError(c.forwardDetails, out.ca.error, out.ca.pollId)
      ensures out.ca.pollId != "" ==> error == out.ca.error && detail == out.ca.pollId
      // without an identifier to poll with: the names that are not allowed, and what else
      // the CA said exactly where that is forwarded
      ensures out.ca.pollId == "" && out.ca.error == "Either CN or SANs are not allowed by configuration" ==>
                && error == "urn:ietf:params:acme:error:rejectedIdentifier"
                && detail == "CN or SANs are not allowed by configuration"
      ensures out.ca.pollId == "" && out.ca.error != "Either CN or SANs are not allowed by configuration" ==>
                && error == "urn:ietf:params:acme:error:serverInternal"
                && detail == if c.forwardDetails && out.ca.error != "" then out.ca.error else "enrollment failed"
    {
      if out.ca.pollId == "" {
        OrderUpdate(o, Invalid);
      }
      var r := ClientError(c.forwardDetails, out.ca.error, out.ca.pollId);
      return r.0, r.1;
    }

    /** The body of the enrollment thread. It writes `valid` and `invalid` whatever the
        status of the order has become in the meantime. */
    method ProcessEnrollmentAndStore(o: string, k: string, out: Outside) returns (end: ThreadEnd)
      modifies this
      ensures db == TablesAfterThread(old(db), o, k, out)
      ensures end == EndOfThread(c, out)
      ensures GotCert(out) && out.store == Stored && o in old(db).orders ==> HasStatus(db, o, Valid)
      ensures db == old(db).(orders := db.orders, certs := db.certs)
      ensures out.preHook.None? && out.ca.CaSays? && out.ca.cert != "" && out.store == Stored ==>
                && (k in old(db).certs ==>
                      var row := old(db).certs[k];
                      db.certs == old(db).certs[k := CertRow(row.order, row.csr, out.ca.cert, out.ca.raw,
                                                             out.issueUts, out.expireUts, row.created)])
                && (o in old(db).orders ==>
                      db.orders == old(db).orders[o := old(db).orders[o].(status := Valid)])
      ensures out.preHook.None? && out.ca.CaSays? && out.ca.cert == "" && out.ca.pollId == "" ==>
                && db.certs == old(db).certs
                && (o in old(db).orders ==>
                      db.orders == old(db).orders[o := old(db).orders[o].(status := Invalid)])
      ensures out.preHook.Some? || out.ca.CaRaises?
              || (if out.ca.cert == "" then out.ca.pollId != "" else out.store != Stored) ==>
                db == old(db)
    {
      if out.preHook.Some? {
        return Returned("pre_hook_error", out.preHook.value);
      }
      if out.ca.CaRaises? {
        return Died;
      }
      var error, detail;
      if out.ca.cert != "" {
        var early;
        early, error, detail := StoreCertificateAndUpdateOrder(o, k, out);
        if early {
          return Returned(error, detail);
        }
      } else {
        error, detail := HandleEnrollmentError(o, k, out);
      }
      if out.postHook.Some? {
        return Returned(SERVER_INTERNAL, UNEXPECTED_FORMAT);
      }
      return Returned(error, detail);
    }

    /** Starts the thread and waits for it, unless in asynchronous mode. A thread that
        died and one that is late look the same to the request. */
    method HandleEnrollmentThread(o: string, k: string, out: Outside) returns (error: string, detail: string)
      modifies this
      ensures db == if Awaited(c, out) then TablesAfterThread(old(db), o, k, out) else old(db)
      ensures c.asyncMode || !out.inTime ==> db == old(db)
      ensures !c.asyncMode && out.inTime && out.preHook.None? && out.ca.CaSays? && out.ca.cert != ""
              && out.store == Stored && k in old(db).certs ==>
                var row := old(db).certs[k];
                db.certs == old(db).certs[k := CertRow(row.order, row.csr, out.ca.cert, out.ca.raw,
                                                       out.issueUts, out.expireUts, row.created)]
      ensures (error, detail) == Learned(c, out)
    {
      if c.asyncMode {
        return "", ASYNC_DETAIL;
      }
      if !out.inTime {
        return TIMEOUT, TIMED_OUT_DETAIL;
      }
      var end := ProcessEnrollmentAndStore(o, k, out);
      if end.Died? {
        return TIMEOUT, TIMED_OUT_DETAIL;
      }
      return end.error, end.detail;
    }

    /** The CSR row, the CSR check and the enrollment behind a claimed order. */
    method FinalizeCsr(o: string, csr: string, out: Outside, now: int) returns (answer: Answer)
      requires o in db.orders && out.certName !in db.certs
      modifies this
      ensures Enrolls(c, old(db), o, csr, out) ==>
                db == EnrollTables(c, old(db), o, csr, out, now) && answer == EnrollAnswer(c, out)
      ensures !out.csrAccepted ==> answer == AnswerOf(CsrRefused)
      ensures out.csrAccepted && !CsrMatches(c, old(db).orders[o].identifiers, csr) ==>
                answer == AnswerOf(CsrMismatch)
      ensures out.csrAccepted && CsrMatches(c, old(db).orders[o].identifiers, csr)
              && DryRun(c, old(db).orders[o].profile) ==>
                answer == AnswerOf(DryRunOnly)
      ensures !Enrolls(c, old(db), o, csr, out) ==>
                answer.code >= 400
                && db == if out.csrAccepted then WithCsrRow(old(db), o, csr, out.certName, now) else old(db)
    {
      if !out.csrAccepted {
        return Answer(500, SERVER_INTERNAL, CSR_REFUSED);
      }
      db := WithCsrRow(db, o, csr, out.certName, now);
      if !CsrMatches(c, db.orders[o].identifiers, csr) {
        return Answer(400, BAD_CSR, CSR_MISMATCH);
      }
      if DryRun(c, db.orders[o].profile) {
        return Answer(401, UNAUTHORIZED, DRYRUN_SKIPPED);
      }
      var error, detail := HandleEnrollmentThread(o, out.certName, out);
      answer := AnswerTo(error, detail);
      if WritesValid(error, detail) {
        OrderUpdate(o, Valid);
      }
    }

    /** Finalizing an order that was read as ready; it may not be any more. */
    method FinalizeReadyOrder(o: string, csr: Option<string>, out: Outside, now: int) returns (answer: Answer)
      requires out.certName !in db.certs
      modifies this
      // no CSR in the request, or the claim is lost: nothing changes
      ensures csr.None? ==> db == old(db) && answer == AnswerOf(CsrMissing)
      ensures csr.Some? && !HasStatus(old(db), o, Ready) ==> db == old(db) && answer == AnswerOf(NotReady)
      // claimed, but not every authorization is valid and unexpired: the order is lost
      ensures csr.Some? && HasStatus(old(db), o, Ready) && !GateOpen(old(db).authzs, o, now) ==>
                answer == AnswerOf(NotReady) && db == SetOrder(old(db), o, Invalid)
      // behind the gate, with a CSR that cannot be used: stuck in processing
      ensures Redeems(old(db), o, csr, now) && !Enrolls(c, old(db), o, csr.value, out) ==>
                && answer.code >= 400 && HasStatus(db, o, Processing)
      ensures HasStatus(old(db), o, Ready) ==>
                && db == OrderTables(c, old(db), o, csr, out, now)
                && answer == OrderAnswer(c, old(db), o, csr, out, now)
      // behind the gate, with a CSR that fits: see OutcomeAgrees and AnswerAgrees
      ensures Redeems(old(db), o, csr, now) && Enrolls(c, old(db), o, csr.value, out) ==>
                && db == EnrollTables(c, SetOrder(old(db), o, Processing), o, csr.value, out, now)
                && answer == EnrollAnswer(c, out)
                && (answer == Answer(200, "", "") ==> HasStatus(db, o, Valid))
                && (HasStatus(db, o, Invalid) ==> answer.code >= 400)
    {
      if csr.None? {
        return Answer(400, BAD_CSR, CSR_MISSING);
      }
      var claimed := OrderUpdateIfStatus(o, Processing, Ready);
      if claimed == 0 {
        return Answer(403, ORDER_NOT_READY, NOT_READY_DETAIL);
      }
      var open := AuthorizationsValidForIssuance(o, now);
      if !open {
        OrderUpdate(o, Invalid);
        return Answer(403, ORDER_NOT_READY, NOT_READY_DETAIL);
      }
      OutcomeAgrees(c, db, o, csr.value, out, now);
      answer := FinalizeCsr(o, csr.value, out, now);
    }

    /** The finalize request of the account that owns the order. Only a ready order
        changes, and it never ends up pending or ready again. */
    method FinalizeOrder(o: string, csr: Option<string>, out: Outside, now: int) returns (answer: Answer)
      requires out.certName !in db.certs
      modifies this
      ensures db == OrderTables(c, old(db), o, csr, out, now)
      ensures answer == OrderAnswer(c, old(db), o, csr, out, now)
      ensures !HasStatus(old(db), o, Ready) ==>
                db == old(db) && answer.code == if HasStatus(old(db), o, Valid) && c.idempotent then 200 else 403
      ensures HasStatus(old(db), o, Ready) && csr.Some? ==>
                HasStatus(db, o, Processing) || HasStatus(db, o, Valid) || HasStatus(db, o, Invalid)
      ensures HasStatus(db, o, Valid) && !HasStatus(old(db), o, Valid) ==>
                && Redeems(old(db), o, csr, now) && Enrolls(c, old(db), o, csr.value, out)
                && Awaited(c, out) && GotCert(out)
    {
      if HasStatus(db, o, Ready) {
        if Redeems(db, o, csr, now) {
          OutcomeAgrees(c, SetOrder(db, o, Processing), o, csr.value, out, now);
        }
        answer := FinalizeReadyOrder(o, csr, out, now);
      } else if HasStatus(db, o, Valid) && c.idempotent {
        answer := Answer(200, "", "");
      } else {
        answer := Answer(403, ORDER_NOT_READY, NOT_READY_DETAIL);
      }
    }

    method InvalidateExpiredOrders(now: int)
      modifies this
      ensures db == old(db).(orders := SweptOrders(old(db).orders, now))
    {
      var sweeper := new Sweeper(db.authzs, db.orders);
      var _ := sweeper.InvalidateExpiredOrders(0, now);
      db := db.(orders := sweeper.orders);
    }

    /** What a request does behind the sweep: it reads the order, whoever asks, and finalizes it
        for its owner. Behind a 200 the order is where no read promotes it. */
    method ParseOrderMessage(account: string, o: string, csr: Option<string>, out: Outside, now: int)
        returns (answer: Answer)
      requires out.certName !in db.certs
      modifies this
      ensures db == RequestTables(c, ReadOrder(old(db), o), account, o, csr, out, now)
      ensures answer == RequestAnswer(c, ReadOrder(old(db), o), account, o, csr, out, now)
      ensures answer.code == 200 ==> o in db.orders && !HasStatus(db, o, Pending)
      ensures answer == Answer(200, "", "") ==> HasStatus(db, o, Valid)
    {
      var found := GetOrderDetails(o);
      if found.None? {
        return AnswerOf(NotFound);
      }
      if account == "" || db.orders[o].account != account {
        return AnswerOf(NotOwner);
      }
      SuccessIsValid(c, db, o, csr, out, now);
      answer := FinalizeOrder(o, csr, out, now);
    }

    /** A finalize request of any account whose message was accepted, from the sweep to the
        order shown with a positive answer: its whole effect on the tables and its answer.
        Nothing in the tables depends on the account but what its owner may do. */
    method ProcessFinalizeRequest(account: string, o: string, csr: Option<string>, out: Outside, now: int)
        returns (answer: Answer, shown: Option<Status>)
      requires out.certName !in db.certs
      modifies this
      ensures db == RequestTables(c, Met(c, old(db), o, now), account, o, csr, out, now)
      ensures answer == RequestAnswer(c, Met(c, old(db), o, now), account, o, csr, out, now)
      ensures shown == if answer.code == 200 && o in db.orders then Some(db.orders[o].status) else None
      ensures answer == Answer(200, "", "") ==> shown == Some(Valid)
      // the certificate table: at most one more row, which holds the stored certificate as it
      // is, or nothing but the CSR
      ensures db.authzs == old(db).authzs && db.challenges == old(db).challenges
      ensures out.certName !in db.certs ==> db.certs == old(db).certs
      ensures out.certName in db.certs && db.certs[out.certName].cert == "" ==>
                csr.Some? && db.certs == old(db).certs[out.certName := CertRow(o, csr.value, "", "", 0, 0, now)]
      ensures out.certName in db.certs && db.certs[out.certName].cert != "" ==>
                && csr.Some? && out.ca.CaSays? && out.store == Stored
                && db.certs == old(db).certs[out.certName := CertRow(o, csr.value, out.ca.cert, out.ca.raw,
                                                                     out.issueUts, out.expireUts, now)]
      ensures answer == Answer(200, "", "") && HasStatus(Met(c, old(db), o, now), o, Ready) && out.store == Stored ==>
                out.certName in db.certs && db.certs[out.certName].cert != ""
    {
      RowOfAnyRequest(c, db, account, o, csr, out, now);
      if c.expiryCheck {
        InvalidateExpiredOrders(now);
      }
      answer := ParseOrderMessage(account, o, csr, out, now);
      shown := None;
      if answer.code == 200 {
        shown := GetOrderDetails(o);
      }
    }
  }

  /** A request that is answered with 200 leaves its order where no read promotes it, and
      valid when the answer says nothing else. */
  lemma SuccessIsValid(c: Config, db: Tables, o: string, csr: Option<string>, out: Outside, now: int)
    requires o in db.orders && out.certName !in db.certs
    ensures var e, answer := OrderTables(c, db, o, csr, out, now), OrderAnswer(c, db, o, csr, out, now);
            && o in e.orders
            && (answer.code == 200 ==> !HasStatus(e, o, Pending))
            && (answer == Answer(200, "", "") ==> HasStatus(e, o, Valid))
  {
    if Redeems(db, o, csr, now) {
      OutcomeAgrees(c, SetOrder(db, o, Processing), o, csr.value, out, now);
    }
  }
}
