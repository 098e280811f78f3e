/** The finalize request in texts and columns: what it is told and what it leaves, in the
    words of the answers and the fields of the rows. */
module FinalizeTable {
  import opened AcmeTables
  import opened FinalizeAnswers
  import opened OrderMachine
  import opened FinalizeServer
  import opened Binding
  import StrictBinding

  // ---------- the answers ----------

  /** The texts that the code tells apart. */
  lemma TextsDiffer()
    ensures DRYRUN_SKIPPED != "" && DRYRUN_SKIPPED != ENROLLMENT_FAILED && DRYRUN_SKIPPED != UNEXPECTED_FORMAT
    ensures DRYRUN_SKIPPED != ASYNC_DETAIL && DRYRUN_SKIPPED != TIMED_OUT_DETAIL
    ensures DRYRUN_SKIPPED != "CN or SANs are not allowed by configuration"
    ensures "pre_hook_error" !in {"", SERVER_INTERNAL, REJECTED_IDENTIFIER, TIMEOUT}
    ensures "success_hook_error" !in {"", SERVER_INTERNAL, REJECTED_IDENTIFIER, TIMEOUT}
    ensures SERVER_INTERNAL !in {"", REJECTED_IDENTIFIER, TIMEOUT}
    ensures REJECTED_IDENTIFIER !in {"", TIMEOUT} && TIMEOUT != ""
  {
    assert |DRYRUN_SKIPPED| == 58 && |ENROLLMENT_FAILED| == 17 && |UNEXPECTED_FORMAT| == 35;
    assert |ASYNC_DETAIL| == 31 && |TIMED_OUT_DETAIL| == 28 && |"CN or SANs are not allowed by configuration"| == 43;
    assert |"pre_hook_error"| == 14 && |"success_hook_error"| == 18 && |TIMEOUT| == 7;
    assert |SERVER_INTERNAL| == 41 && |REJECTED_IDENTIFIER| == 45;
  }

  /** A thread that is not waited for, one that is late and one that died. */
  lemma UnknownResult(c: Config, out: Outside)
    ensures c.asyncMode ==> EnrollAnswer(c, out) == Answer(200, "", "asynchronous enrollment started")
    ensures !c.asyncMode && (!out.inTime || (out.preHook.None? && out.ca.CaRaises?)) ==>
              EnrollAnswer(c, out) == Answer(200, "timeout", "Enrollment process timed out")
  {
    TextsDiffer();
  }

  /** The failures of an awaited thread around its CA answer. A hook text of its own is handed
      on, but for the one text that reads as a dry run. */
  lemma HookFailures(c: Config, out: Outside)
    requires !c.asyncMode && out.inTime
    ensures var e, skipped := EnrollAnswer(c, out), "Dry run mode - enrollment and certificate issuance skipped";
            && (out.preHook.Some? ==>
                  var text := out.preHook.value;
                  e == if text == skipped then Answer(401, "urn:ietf:params:acme:error:unauthorized", skipped)
                       else Answer(400, "pre_hook_error", if text == "" then "enrollment failed" else text))
            && (out.preHook.None? && out.ca.CaSays? && out.ca.cert != "" ==>
                  && (out.store == StoreRaises ==>
                        e == Answer(500, "urn:ietf:params:acme:error:serverInternal",
                                    "Unexpected enrollment result format"))
                  && (out.store != StoreRaises && out.successHook.Some? ==>
                        var text := out.successHook.value;
                        e == if text == skipped then Answer(401, "urn:ietf:params:acme:error:unauthorized", skipped)
                             else Answer(400, "success_hook_error", if text == "" then "enrollment failed" else text))
                  && (out.store != StoreRaises && out.successHook.None? && out.postHook.None? ==>
                        e == Answer(200, "", "")))
            && (out.preHook.None? && out.ca.CaSays? && out.postHook.Some?
                && (out.ca.cert == "" || (out.store != StoreRaises && out.successHook.None?)) ==>
                  e == Answer(500, "urn:ietf:params:acme:error:serverInternal", "Unexpected enrollment result format"))
  {
    TextsDiffer();
  }

  /** A CA that gives neither a certificate nor an identifier to poll with: its own text goes
      to the client only where that is configured; names that it does not allow are told
      apart all the same. */
  lemma CaRefusal(c: Config, out: Outside)
    requires !c.asyncMode && out.inTime && out.preHook.None? && out.postHook.None?
    requires out.ca.CaSays? && out.ca.cert == "" && out.ca.pollId == ""
    ensures var e, text := EnrollAnswer(c, out), out.ca.error;
            && (text == "Either CN or SANs are not allowed by configuration" ==>
                  e == Answer(401, "urn:ietf:params:acme:error:rejectedIdentifier",
                              "CN or SANs are not allowed by configuration"))
            && (text != "Either CN or SANs are not allowed by configuration" ==>
                  && (!c.forwardDetails || text == "" ==>
                        e == Answer(500, "urn:ietf:params:acme:error:serverInternal", "enrollment failed"))
                  && (c.forwardDetails && text != "" ==>
                        && e.detail == text
                        && if text == "Dry run mode - enrollment and certificate issuance skipped" then
                             e.code == 401 && e.message == "urn:ietf:params:acme:error:unauthorized"
                           else e.code == 500 && e.message == "urn:ietf:params:acme:error:serverInternal"))
  {
    TextsDiffer();
  }

  /** With an identifier to poll with, the detail is that identifier, and the CA's error is the
      message; only a missing one, and `timeout`, count as a success. */
  lemma CaAsksToPoll(c: Config, out: Outside)
    requires !c.asyncMode && out.inTime && out.preHook.None? && out.postHook.None?
    requires out.ca.CaSays? && out.ca.cert == "" && out.ca.pollId != ""
    ensures var e, error, id := EnrollAnswer(c, out), out.ca.error, out.ca.pollId;
            && e.detail == id
            && (error == "timeout" ==> e.code == 200 && e.message == "timeout")
            && (error == "urn:ietf:params:acme:error:rejectedIdentifier" ==> e.code == 401 && e.message == error)
            && (error !in {"timeout", "urn:ietf:params:acme:error:rejectedIdentifier"} ==>
                  if id == "Dry run mode - enrollment and certificate issuance skipped" then
                    e.code == 401 && e.message == "urn:ietf:params:acme:error:unauthorized"
                  else
                    && e.message == error
                    && e.code == if error == "" then 200
                                 else if error == "urn:ietf:params:acme:error:serverInternal" then 500 else 400)
  {
    TextsDiffer();
  }

  /** Why a request is refused, in the order of the checks, and what is left to the enrollment. */
  lemma RefusalsInTexts(c: Config, db: Tables, account: string, o: string, csr: Option<string>, out: Outside, now: int)
    ensures var e, mine := RequestAnswer(c, db, account, o, csr, out, now),
                           o in db.orders && account != "" && db.orders[o].account == account;
            && (o !in db.orders ==> e == Answer(403, "urn:ietf:params:acme:error:orderNotReady", "order not found"))
            && (o in db.orders && !mine ==> e == Answer(403, "urn:ietf:params:acme:error:unauthorized", "Unauthorized"))
            && (mine && db.orders[o].status == Valid && c.idempotent ==> e == Answer(200, "", ""))
            && (mine && db.orders[o].status != Ready && !(db.orders[o].status == Valid && c.idempotent) ==>
                  e == Answer(403, "urn:ietf:params:acme:error:orderNotReady", "Order is not ready"))
            && (mine && db.orders[o].status == Ready && csr.None? ==>
                  e == Answer(400, "urn:ietf:params:acme:error:badCSR", "csr is missing in payload"))
            && (mine && db.orders[o].status == Ready && csr.Some? && !GateOpen(db.authzs, o, now) ==>
                  e == Answer(403, "urn:ietf:params:acme:error:orderNotReady", "Order is not ready"))
            && (mine && db.orders[o].status == Ready && csr.Some? && GateOpen(db.authzs, o, now) ==>
                  var matches := CsrMatches(c, db.orders[o].identifiers, csr.value);
                  var dry := c.dryrun || (db.orders[o].profile != "" && c.dryrunProfile == Some(db.orders[o].profile));
                  && (!out.csrAccepted ==>
                        e == Answer(500, "urn:ietf:params:acme:error:serverInternal", "CSR processing failed"))
                  && (out.csrAccepted && !matches ==>
                        e == Answer(400, "urn:ietf:params:acme:error:badCSR", "CSR validation failed"))
                  && (out.csrAccepted && matches && dry ==>
                        e == Answer(401, "urn:ietf:params:acme:error:unauthorized",
                                    "Dry run mode - enrollment and certificate issuance skipped"))
                  && (out.csrAccepted && matches && !dry ==> e == EnrollAnswer(c, out)))
  {
  }

  /** Some identifier of this type has this text, up to case. */
  predicate Names(ids: seq<Identifier>, kind: string, value: string) {
    value != "" && exists k :: 0 <= k < |ids| && Lower(ids[k].kind) == kind && Lower(ids[k].value) == Lower(value)
  }

  /** When a CSR fits its order: TNAuthList orders have a comparison of their own; otherwise the
      CSR must be readable, and then strict compares two sets of names, and legacy asks for a
      SAN, and an identifier behind each one. */
  lemma FittingCsr(c: Config, ids: seq<Identifier>, csr: string)
    ensures var special := c.tnauth && exists k :: 0 <= k < |ids| && Lower(ids[k].kind) == "tnauthlist";
            && (special ==> (CsrMatches(c, ids, csr) <==> c.tnauthMatch(ids, csr)))
            && (!special && c.parseCsr(csr).None? ==> !CsrMatches(c, ids, csr))
            && (!special && c.parseCsr(csr).Some? ==>
                  var read := c.parseCsr(csr).value;
                  && (c.strict ==> (CsrMatches(c, ids, csr) <==>
                        OrderNames(ids, c.rules) == CsrNames(read, c.rules) && OrderNames(ids, c.rules) != {}))
                  && (!c.strict ==> (CsrMatches(c, ids, csr) <==>
                        && (read.dns != [] || read.ips != [] || read.emails != [])
                        && (forall v | v in read.dns :: Names(ids, "dns", v))
                        && (forall v | v in read.ips :: Names(ids, "ip", v))
                        && (forall v | v in read.emails :: Names(ids, "email", v)))))
  {
    if c.parseCsr(csr).Some? {
      var read := c.parseCsr(csr).value;
      StrictBinding.LegacyByType(ids, read);
      forall kind, v | kind in {"dns", "ip", "email"}
        ensures StrictBinding.ReadsLike(ids, (kind, Lower(v))) <==> Names(ids, kind, v)
      {
      }
    }
  }

  // ---------- what the client cannot learn ----------

  /** Two answers of the CA that differ in their error text, neither of which is the one about
      names. */
  predicate DifferInText(one: Outside, two: Outside) {
    && one.ca.CaSays? && two.ca.CaSays? && two == one.(ca := two.ca) && two.ca == one.ca.(error := two.ca.error)
    && one.ca.error != "Either CN or SANs are not allowed by configuration"
    && two.ca.error != "Either CN or SANs are not allowed by configuration"
  }

  /** Unless its details are forwarded, or it asks to be polled, no request of any account learns
      from its answer, or from the tables, what the CA gave as its error. */
  lemma CaTextIsWithheld(c: Config, db: Tables, account: string, o: string, csr: Option<string>, one: Outside,
                         two: Outside, now: int)
    requires DifferInText(one, two) && one.ca.pollId == "" && !c.forwardDetails
    ensures var m := Met(c, db, o, now);
            && RequestAnswer(c, m, account, o, csr, one, now) == RequestAnswer(c, m, account, o, csr, two, now)
            && RequestTables(c, m, account, o, csr, one, now) == RequestTables(c, m, account, o, csr, two, now)
  {
    SameLearned(c, one, two);
    var m := Met(c, db, o, now);
    if Owns(m, account, o) && Refusal(c, m, o, csr, one, now).None? {
      SameEnrolled(c, SetOrder(m, o, Processing), o, csr.value, one, two, now);
    }
  }

  lemma SameLearned(c: Config, one: Outside, two: Outside)
    requires DifferInText(one, two) && one.ca.pollId == "" && !c.forwardDetails
    ensures Learned(c, one) == Learned(c, two)
  {
  }

  lemma SameEnrolled(c: Config, db: Tables, o: string, csr: string, one: Outside, two: Outside, now: int)
    requires DifferInText(one, two) && Learned(c, one) == Learned(c, two)
    ensures EnrollTables(c, db, o, csr, one, now) == EnrollTables(c, db, o, csr, two, now)
  {
  }

  // ---------- the tables ----------

  /** What the sweep and the read leave of the order that is asked for. */
  lemma MetInColumns(c: Config, db: Tables, o: string, now: int)
    requires o in db.orders
    ensures var m, row := Met(c, db, o, now), db.orders[o];
            && o in m.orders
            && m.orders[o].status ==
                 if c.expiryCheck && row.expires <= now then Invalid
                 else if row.status == Pending
                         && (exists a :: a in db.authzs && db.authzs[a].order == o)
                         && (forall a | a in db.authzs && db.authzs[a].order == o :: db.authzs[a].status == Valid)
                 then Ready
                 else row.status
  {
    SomeAuthz(db.authzs, o);
  }

  /** The status of one order is all that differs. */
  predicate OnlyStatusOf(d: map<string, OrderRow>, e: map<string, OrderRow>, o: string) {
    if o in d then o in e && e == d[o := d[o].(status := e[o].status)] else e == d
  }

  lemma EnrollmentWritesStatus(c: Config, db: Tables, o: string, csr: string, out: Outside, now: int)
    ensures OnlyStatusOf(db.orders, EnrollTables(c, db, o, csr, out, now).orders, o)
  {
    var w := WithCsrRow(db, o, csr, out.certName, now);
    assert OnlyStatusOf(w.orders, TablesAfterThread(w, o, out.certName, out).orders, o);
  }

  lemma RequestWritesStatus(c: Config, db: Tables, account: string, o: string, csr: Option<string>, out: Outside,
                            now: int)
    ensures OnlyStatusOf(db.orders, RequestTables(c, db, account, o, csr, out, now).orders, o)
  {
    if Owns(db, account, o) && HasStatus(db, o, Ready) && csr.Some? {
      var claimed := SetOrder(db, o, Processing);
      EnrollmentWritesStatus(c, claimed, o, csr.value, out, now);
    }
  }

  lemma OthersAreMetSwept(c: Config, db: Tables, o: string, now: int)
    ensures var m := Met(c, db, o, now);
            && m.orders.Keys == db.orders.Keys
            && (forall x | x in db.orders :: m.orders[x] == db.orders[x].(status := m.orders[x].status))
            && (forall x | x in db.orders && x != o ::
                  m.orders[x].status == if c.expiryCheck && db.orders[x].expires <= now then Invalid
                                        else db.orders[x].status)
  {
  }

  /** Order rows keep all but their status, and only the order that is asked for can change in
      another way than by the sweep. */
  lemma OtherOrdersAreSwept(c: Config, db: Tables, account: string, o: string, csr: Option<string>, out: Outside,
                            now: int)
    ensures var e := RequestTables(c, Met(c, db, o, now), account, o, csr, out, now);
            && e.orders.Keys == db.orders.Keys
            && (forall x | x in db.orders :: e.orders[x] == db.orders[x].(status := e.orders[x].status))
            && (forall x | x in db.orders && x != o ::
                  e.orders[x].status == if c.expiryCheck && db.orders[x].expires <= now then Invalid
                                        else db.orders[x].status)
  {
    RequestWritesStatus(c, Met(c, db, o, now), account, o, csr, out, now);
    OthersAreMetSwept(c, db, o, now);
  }

  /** The order behind an enrollment: lost when the CA gave nothing, valid when the
      certificate is stored - or its store failed and nobody noticed - and stuck otherwise. */
  lemma EnrolledStatus(c: Config, db: Tables, o: string, csr: string, out: Outside, now: int)
    requires HasStatus(db, o, Processing)
    ensures var e := EnrollTables(c, db, o, csr, out, now);
            && o in e.orders
            && e.orders[o].status ==
                 if c.asyncMode || !out.inTime || out.preHook.Some? || out.ca.CaRaises? then Processing
                 else if out.ca.cert == "" then if out.ca.pollId == "" then Invalid else Processing
                 else if out.store == Stored then Valid
                 else if out.store == StoreFails && out.successHook.None? && out.postHook.None? then Valid
                 else Processing
  {
    TextsDiffer();
  }

  /** The order that its owner finalizes: untouched unless it is ready and a CSR is sent, lost at
      a closed gate, in processing with a CSR that cannot be used, and enrolled otherwise. */
  lemma OwnOrderStatus(c: Config, db: Tables, account: string, o: string, csr: Option<string>, out: Outside, now: int)
    requires o in db.orders
    ensures var e := RequestTables(c, db, account, o, csr, out, now);
            var row := db.orders[o];
            && (account == "" || row.account != account || row.status != Ready || csr.None? ==> e == db)
            && (account != "" && row.account == account && row.status == Ready && csr.Some? ==>
                  && o in e.orders
                  && (!GateOpen(db.authzs, o, now) ==> e.orders[o].status == Invalid && e.certs == db.certs)
                  && (GateOpen(db.authzs, o, now) && !out.csrAccepted ==>
                        e.orders[o].status == Processing && e.certs == db.certs)
                  && (GateOpen(db.authzs, o, now) && out.csrAccepted ==>
                        if !CsrMatches(c, row.identifiers, csr.value) || c.dryrun
                           || (row.profile != "" && c.dryrunProfile == Some(row.profile)) then
                          && e.orders[o].status == Processing
                          && e.certs == db.certs[out.certName := CertRow(o, csr.value, "", "", 0, 0, now)]
                        else e == EnrollTables(c, SetOrder(db, o, Processing), o, csr.value, out, now)))
  {
  }
}
