/** The finalize request of the sequential server is one of the interleaved runs. */
module SoloRun {
  import opened AcmeTables
  import opened FinalizeAnswers
  import opened OrderMachine
  import opened FinalizeServer
  import opened Reaching
  import opened Sweeps
  import opened SweepRuns

  // ---------- the enrollment thread on its own ----------

  function EndPc(end: ThreadEnd): EnrollPc {
    match end
    case Died => EDied
    case Returned(error, detail) => EReturned(error, detail)
  }

  lemma ThreadAsksCa(c: Config, R: iset<State>, t: State, pid: nat, p: Proc) returns (u: State)
    requires Closed(c, R) && t in R && Alive(t, pid, p) && p.Enroll? && p.epc == EBegin
    ensures u in R && u.db == t.db
    ensures OnlyMoved(t, u, pid, p.(epc := EAtCa)) && Issued(p.parent, p.order, p.csr, false) in u.log
  {
    u := GoEnroll(c, R, t, pid, p, CALM);
    u := GoEnroll(c, R, u, pid, p.(epc := EHooked), CALM);
    assert u.log[|t.log|] == Issued(p.parent, p.order, p.csr, false);
  }

  lemma ThreadIsStopped(c: Config, R: iset<State>, t: State, pid: nat, p: Proc, text: string) returns (u: State)
    requires Closed(c, R) && t in R && Alive(t, pid, p) && p.Enroll? && p.epc == EBegin
    ensures u in R && u.db == t.db
    ensures OnlyMoved(t, u, pid, p.(epc := EReturned("pre_hook_error", text)))
  {
    u := GoEnroll(c, R, t, pid, p, CALM.(hookError := Some(text)));
  }

  lemma ThreadHooks(c: Config, R: iset<State>, t: State, pid: nat, p: Proc, out: Outside) returns (u: State)
    requires Closed(c, R) && t in R && Alive(t, pid, p) && p.Enroll? && p.epc.EPostHook?
    ensures u in R && u.db == t.db
    ensures OnlyMoved(t, u, pid, p.(epc := EndPc(HooksDone(out, p.epc.error, p.epc.detail))))
  {
    u := GoEnroll(c, R, t, pid, p, CALM.(hookError := out.postHook));
  }

  lemma ThreadWritesRow(c: Config, R: iset<State>, t: State, pid: nat, p: Proc, issue: int, expire: int)
    returns (u: State)
    requires Closed(c, R) && t in R && Alive(t, pid, p) && p.Enroll? && p.epc.EGotCert?
    ensures u in R && u.db == StoreCert(t.db, p.certName, p.epc.cert, p.epc.raw, issue, expire)
    ensures OnlyMoved(t, u, pid, p.(epc := ECertStored))
  {
    u := GoEnroll(c, R, t, pid, p, CALM.(issue := issue, until := expire));
  }

  lemma ThreadWritesValid(c: Config, R: iset<State>, t: State, pid: nat, p: Proc) returns (u: State)
    requires Closed(c, R) && t in R && Alive(t, pid, p) && p.Enroll? && p.epc == ECertStored
    ensures u in R && u.db == SetOrder(t.db, p.order, Valid)
    ensures OnlyMoved(t, u, pid, p.(epc := ESuccessHook))
  {
    u := GoEnroll(c, R, t, pid, p, CALM);
  }

  lemma ThreadLosesCert(c: Config, R: iset<State>, t: State, pid: nat, p: Proc) returns (u: State)
    requires Closed(c, R) && t in R && Alive(t, pid, p) && p.Enroll? && p.epc.EGotCert?
    ensures u in R && u.db == t.db
    ensures OnlyMoved(t, u, pid, p.(epc := ESuccessHook))
  {
    u := GoEnroll(c, R, t, pid, p, CALM.(lost := true));
  }

  lemma ThreadSucceeds(c: Config, R: iset<State>, t: State, pid: nat, p: Proc, out: Outside) returns (u: State)
    requires Closed(c, R) && t in R && Alive(t, pid, p) && p.Enroll? && p.epc == ESuccessHook
    requires GotCert(out) && out.store != StoreRaises
    ensures u in R && u.db == t.db
    ensures OnlyMoved(t, u, pid, p.(epc := EndPc(EndOfThread(c, out))))
  {
    u := GoEnroll(c, R, t, pid, p, CALM.(hookError := out.successHook));
    if out.successHook.None? {
      u := ThreadHooks(c, R, u, pid, p.(epc := EPostHook("", "")), out);
    }
  }

  lemma ThreadStores(c: Config, R: iset<State>, t: State, pid: nat, p: Proc, out: Outside) returns (u: State)
    requires Closed(c, R) && t in R && Alive(t, pid, p) && p.Enroll?
    requires GotCert(out) && p.epc == EGotCert(out.ca.cert, out.ca.raw)
    ensures u in R && u.db == TablesAfterThread(t.db, p.order, p.certName, out)
    ensures OnlyMoved(t, u, pid, p.(epc := EndPc(EndOfThread(c, out))))
  {
    match out.store
    case StoreRaises =>
      u := GoEnroll(c, R, t, pid, p, CALM.(verdict := Raised));
    case StoreFails =>
      u := ThreadLosesCert(c, R, t, pid, p);
      u := ThreadSucceeds(c, R, u, pid, p.(epc := ESuccessHook), out);
    case Stored =>
      u := ThreadWritesRow(c, R, t, pid, p, out.issueUts, out.expireUts);
      u := ThreadWritesValid(c, R, u, pid, p.(epc := ECertStored));
      u := ThreadSucceeds(c, R, u, pid, p.(epc := ESuccessHook), out);
  }

  lemma ThreadFails(c: Config, R: iset<State>, t: State, pid: nat, p: Proc, out: Outside) returns (u: State)
    requires Closed(c, R) && t in R && Alive(t, pid, p) && p.Enroll?
    requires NoCert(out) && p.epc == ENoCert(out.ca.error, out.ca.pollId)
    ensures u in R && u.db == TablesAfterThread(t.db, p.order, p.certName, out)
    ensures OnlyMoved(t, u, pid, p.(epc := EndPc(EndOfThread(c, out))))
  {
    var r := ClientError(c.forwardDetails, out.ca.error, out.ca.pollId);
    u := GoEnroll(c, R, t, pid, p, CALM);
    u := ThreadHooks(c, R, u, pid, p.(epc := EPostHook(r.0, r.1)), out);
  }

  /** The answer of the CA reaches the thread. */
  lemma ThreadHears(c: Config, R: iset<State>, t: State, pid: nat, p: Proc, out: Outside) returns (u: State)
    requires Closed(c, R) && t in R && Alive(t, pid, p) && p.Enroll? && p.epc == EAtCa
    ensures u in R && u.db == t.db
    ensures OnlyMoved(t, u, pid, p.(epc :=
              if out.ca.CaRaises? then EDied
              else if out.ca.cert != "" then EGotCert(out.ca.cert, out.ca.raw)
              else ENoCert(out.ca.error, out.ca.pollId)))
  {
    if out.ca.CaRaises? {
      u := GoEnroll(c, R, t, pid, p, CALM.(verdict := Raised));
    } else {
      u := GoEnroll(c, R, t, pid, p,
                    CALM.(answer := CaAnswer(out.ca.error, out.ca.cert, out.ca.raw, out.ca.pollId, false)));
    }
  }

  lemma ThreadEnds(c: Config, R: iset<State>, t: State, pid: nat, p: Proc, out: Outside) returns (u: State)
    requires Closed(c, R) && t in R && Alive(t, pid, p) && p.Enroll? && p.epc == EAtCa && out.preHook.None?
    ensures u in R && u.db == TablesAfterThread(t.db, p.order, p.certName, out)
    ensures OnlyMoved(t, u, pid, p.(epc := EndPc(EndOfThread(c, out))))
  {
    u := ThreadHears(c, R, t, pid, p, out);
    if GotCert(out) {
      u := ThreadStores(c, R, u, pid, p.(epc := EGotCert(out.ca.cert, out.ca.raw)), out);
    } else if NoCert(out) {
      u := ThreadFails(c, R, u, pid, p.(epc := ENoCert(out.ca.error, out.ca.pollId)), out);
    }
  }

  /** Run on its own, the thread does to the tables what the sequential thread does, and
      ends the same way. */
  lemma ThreadRuns(c: Config, R: iset<State>, t: State, pid: nat, p: Proc, out: Outside) returns (u: State)
    requires Closed(c, R) && t in R && Alive(t, pid, p) && p.Enroll? && p.epc == EBegin
    ensures u in R && u.db == TablesAfterThread(t.db, p.order, p.certName, out)
    ensures OnlyMoved(t, u, pid, p.(epc := EndPc(EndOfThread(c, out))))
    ensures out.preHook.None? ==> Issued(p.parent, p.order, p.csr, false) in u.log
  {
    if out.preHook.Some? {
      u := ThreadIsStopped(c, R, t, pid, p, out.preHook.value);
    } else {
      u := ThreadAsksCa(c, R, t, pid, p);
      var log := u.log;
      u := ThreadEnds(c, R, u, pid, p.(epc := EAtCa), out);
      assert log <= u.log;
    }
  }

  // ---------- the request ----------

  /** The request has its answer. */
  predicate Answered(s: State, pid: nat, p: Proc, reply: Reply)
    requires p.Finalize?
  {
    pid in s.procs && s.procs[pid] == p.(fpc := FAnswered(reply))
  }

  /** Nobody else moved, and at most one process was started. */
  predicate Alone(s: State, t: State, pid: nat, child: nat) {
    && t.now == s.now && t.dead == s.dead && t.disclosed == s.disclosed && s.log <= t.log
    && t.procs.Keys <= s.procs.Keys + {pid, child}
  }

  lemma AloneAfterMove(s: State, t: State, u: State, pid: nat, child: nat, p: Proc)
    requires OnlyMoved(s, t, pid, p) && Alone(t, u, pid, child)
    ensures Alone(s, u, pid, child)
  {
  }

  lemma RequestIsOwned(c: Config, R: iset<State>, t: State, pid: nat, p: Proc) returns (u: State)
    requires Closed(c, R) && t in R && Alive(t, pid, p) && p.Finalize? && p.fpc == FArrived
    ensures u in R && u.db == t.db
    ensures OnlyMoved(t, u, pid, p.(fpc :=
              if p.order !in t.db.orders then FAnswered(NotFound)
              else if Owns(t.db, p.account, p.order) then FOwned
              else FAnswered(NotOwner)))
  {
    u := GoAdmit(c, R, t, pid, p, CALM);
  }

  lemma RequestIsRead(c: Config, R: iset<State>, t: State, pid: nat, p: Proc) returns (u: State)
    requires Closed(c, R) && t in R && Alive(t, pid, p) && p.Finalize? && p.fpc == FOwned
    ensures u in R && u.db == t.db
    ensures OnlyMoved(t, u, pid, p.(fpc :=
              if HasStatus(t.db, p.order, Valid) && c.idempotent then FAnswered(AlreadyValid)
              else if !HasStatus(t.db, p.order, Ready) then FAnswered(NotReady)
              else if p.payloadCsr.None? then FAnswered(CsrMissing)
              else FSawReady))
  {
    u := GoAdmit(c, R, t, pid, p, CALM);
  }

  lemma RequestClaims(c: Config, R: iset<State>, t: State, pid: nat, p: Proc) returns (u: State)
    requires Closed(c, R) && t in R && Alive(t, pid, p) && p.Finalize? && p.fpc == FSawReady
    requires HasStatus(t.db, p.order, Ready)
    ensures u in R && u.db == SetOrder(t.db, p.order, Processing)
    ensures OnlyMoved(t, u, pid, p.(fpc := FClaimed)) && u.log == t.log + [ClaimWon(pid, p.order)]
  {
    u := GoAdmit(c, R, t, pid, p, CALM);
  }

  lemma RequestIsGated(c: Config, R: iset<State>, t: State, pid: nat, p: Proc) returns (u: State)
    requires Closed(c, R) && t in R && Alive(t, pid, p) && p.Finalize? && p.fpc == FClaimed
    ensures u in R && u.db == t.db
    ensures OnlyMoved(t, u, pid, p.(fpc := if GateOpen(t.db.authzs, p.order, t.now) then FGated else FGateFailed))
  {
    u := GoAdmit(c, R, t, pid, p, CALM);
  }

  lemma RequestIsTurnedAway(c: Config, R: iset<State>, t: State, pid: nat, p: Proc) returns (u: State)
    requires Closed(c, R) && t in R && Alive(t, pid, p) && p.Finalize? && p.fpc == FGateFailed
    ensures u in R && u.db == SetOrder(t.db, p.order, Invalid)
    ensures OnlyMoved(t, u, pid, p.(fpc := FAnswered(NotReady)))
  {
    u := GoAdmit(c, R, t, pid, p, CALM);
  }

  lemma RequestStoresCsr(c: Config, R: iset<State>, t: State, pid: nat, p: Proc, out: Outside) returns (u: State)
    requires Closed(c, R) && t in R && Alive(t, pid, p) && p.Finalize? && p.fpc == FGated
    requires p.payloadCsr.Some? && out.certName !in t.db.certs
    ensures u in R
    ensures u.db == if out.csrAccepted then WithCsrRow(t.db, p.order, p.payloadCsr.value, out.certName, t.now) else t.db
    ensures OnlyMoved(t, u, pid, p.(fpc := if out.csrAccepted then FCsrStored(out.certName) else FAnswered(CsrRefused)))
  {
    u := GoRedeem(c, R, t, pid, p, CALM.(name := out.certName, accepted := out.csrAccepted));
  }

  lemma RequestIsBound(c: Config, R: iset<State>, t: State, pid: nat, p: Proc) returns (u: State)
    requires Closed(c, R) && t in R && Alive(t, pid, p) && p.Finalize? && p.fpc.FCsrStored?
    requires p.payloadCsr.Some? && p.order in t.db.orders
    ensures u in R && u.db == t.db
    ensures OnlyMoved(t, u, pid, p.(fpc :=
              if !CsrMatches(c, t.db.orders[p.order].identifiers, p.payloadCsr.value) then FAnswered(CsrMismatch)
              else if DryRun(c, t.db.orders[p.order].profile) then FAnswered(DryRunOnly)
              else FBound(p.fpc.cert)))
  {
    u := GoRedeem(c, R, t, pid, p, CALM);
  }

  function AfterSpawn(c: Config, child: nat): FinalizePc {
    if c.asyncMode then FAnswered(Started) else FWaiting(child)
  }

  lemma RequestSpawns(c: Config, R: iset<State>, t: State, pid: nat, p: Proc, child: nat) returns (u: State)
    requires Closed(c, R) && t in R && Alive(t, pid, p) && p.Finalize? && p.fpc.FBound?
    requires p.payloadCsr.Some? && child !in t.procs
    ensures u in R && u.db == t.db && u.now == t.now && u.dead == t.dead && u.log == t.log
    ensures u.disclosed == t.disclosed
    ensures u.procs == t.procs[child := Enroll(pid, p.order, p.payloadCsr.value, p.fpc.cert, EBegin)]
                              [pid := p.(fpc := AfterSpawn(c, child))]
  {
    var spawn := Advance(pid, CALM.(pid := child));
    u := Step(c, t, spawn);
    assert u == Take(t, pid, RedeemTurn(c, t, pid, p, CALM.(pid := child)));
  }

  lemma RequestTimesOut(c: Config, R: iset<State>, t: State, pid: nat, p: Proc) returns (u: State)
    requires Closed(c, R) && t in R && Alive(t, pid, p) && p.Finalize? && p.fpc.FWaiting?
    ensures u in R && u.db == t.db && OnlyMoved(t, u, pid, p.(fpc := FAnswered(TimedOut)))
  {
    u := GoRedeem(c, R, t, pid, p, CALM.(timeout := true));
  }

  lemma RequestWritesValid(c: Config, R: iset<State>, t: State, pid: nat, p: Proc) returns (u: State)
    requires Closed(c, R) && t in R && Alive(t, pid, p) && p.Finalize? && p.fpc == FSucceeded
    ensures u in R && u.db == SetOrder(t.db, p.order, Valid)
    ensures OnlyMoved(t, u, pid, p.(fpc := FAnswered(Result("", ""))))
  {
    u := GoRedeem(c, R, t, pid, p, CALM);
  }

  function Heard(end: EnrollPc): FinalizePc {
    if !end.EReturned? then FAnswered(TimedOut)
    else if WritesValid(end.error, end.detail) then FSucceeded
    else FAnswered(Result(end.error, end.detail))
  }

  lemma RequestHears(c: Config, R: iset<State>, t: State, pid: nat, p: Proc, child: nat) returns (u: State)
    requires Closed(c, R) && t in R && Alive(t, pid, p) && p.Finalize? && p.fpc == FWaiting(child)
    requires child in t.procs && t.procs[child].Enroll?
    requires t.procs[child].epc.EReturned? || t.procs[child].epc.EDied?
    ensures u in R && u.db == t.db && OnlyMoved(t, u, pid, p.(fpc := Heard(t.procs[child].epc)))
  {
    u := GoRedeem(c, R, t, pid, p, CALM);
  }

  /** The answer that the waiting request gives to the end of its thread. */
  lemma HeardIsLearned(c: Config, out: Outside)
    requires Awaited(c, out)
    ensures var pc := Heard(EndPc(EndOfThread(c, out)));
            && (pc.FSucceeded? <==> WritesValid(Learned(c, out).0, Learned(c, out).1))
            && (pc.FAnswered? ==> AnswerOf(pc.reply) == EnrollAnswer(c, out))
            && (pc.FSucceeded? ==> AnswerOf(Result("", "")) == EnrollAnswer(c, out))
            && (pc.FSucceeded? || pc.FAnswered?)
  {
    AnswerAgrees(c, out);
  }

  /** The thread ran to its end and the waiting request takes its result. */
  lemma RequestAwaits(c: Config, R: iset<State>, t: State, pid: nat, p: Proc, child: nat, out: Outside)
    returns (u: State, reply: Reply)
    requires Closed(c, R) && t in R && Alive(t, pid, p) && p.Finalize? && p.fpc == FWaiting(child) && Awaited(c, out)
    requires child in t.procs && t.procs[child].Enroll? && t.procs[child].epc == EndPc(EndOfThread(c, out))
    ensures u in R && OnlyMoved(t, u, pid, p.(fpc := FAnswered(reply)))
    ensures AnswerOf(reply) == EnrollAnswer(c, out)
    ensures u.db == if WritesValid(Learned(c, out).0, Learned(c, out).1) then SetOrder(t.db, p.order, Valid) else t.db
  {
    var pc := Heard(EndPc(EndOfThread(c, out)));
    HeardIsLearned(c, out);
    u := RequestHears(c, R, t, pid, p, child);
    if pc.FSucceeded? {
      u := RequestWritesValid(c, R, u, pid, p.(fpc := FSucceeded));
      reply := Result("", "");
    } else {
      reply := pc.reply;
    }
  }

  /** From the started thread to the answer. */
  lemma RequestWaits(c: Config, R: iset<State>, t: State, pid: nat, p: Proc, child: nat, thread: Proc, out: Outside)
    returns (u: State, reply: Reply)
    requires Closed(c, R) && t in R && Alive(t, pid, p) && p.Finalize? && p.fpc == AfterSpawn(c, child)
    requires child != pid && Alive(t, child, thread)
    requires thread.Enroll? && thread.epc == EBegin && thread.order == p.order
    ensures u in R && Answered(u, pid, p, reply) && AnswerOf(reply) == EnrollAnswer(c, out)
    ensures Alone(t, u, pid, child)
    ensures u.db == AfterEnrolling(c, t.db, p.order, thread.certName, out)
    ensures Awaited(c, out) && out.preHook.None? ==> Issued(thread.parent, thread.order, thread.csr, false) in u.log
  {
    AnswerAgrees(c, out);
    if c.asyncMode {
      u, reply := t, Started;
    } else if !out.inTime {
      u := RequestTimesOut(c, R, t, pid, p);
      reply := TimedOut;
    } else {
      var mid := ThreadRuns(c, R, t, child, thread, out);
      u, reply := RequestAwaits(c, R, mid, pid, p, child, out);
      assert mid.log <= u.log;
    }
  }

  /** From the checked CSR to the answer. */
  lemma RequestEnrolls(c: Config, R: iset<State>, t: State, pid: nat, p: Proc, child: nat, out: Outside)
    returns (u: State, reply: Reply)
    requires Closed(c, R) && t in R && Alive(t, pid, p) && p.Finalize? && p.fpc == FBound(out.certName)
    requires p.payloadCsr.Some? && Fresh(t, child)
    ensures u in R && Answered(u, pid, p, reply) && AnswerOf(reply) == EnrollAnswer(c, out)
    ensures Alone(t, u, pid, child)
    ensures u.db == AfterEnrolling(c, t.db, p.order, out.certName, out)
    ensures Awaited(c, out) && out.preHook.None? ==> Issued(pid, p.order, p.payloadCsr.value, false) in u.log
  {
    var thread := Enroll(pid, p.order, p.payloadCsr.value, out.certName, EBegin);
    u := RequestSpawns(c, R, t, pid, p, child);
    u, reply := RequestWaits(c, R, u, pid, p.(fpc := AfterSpawn(c, child)), child, thread, out);
  }

  /** Behind the open gate. */
  lemma RequestRedeems(c: Config, R: iset<State>, t: State, pid: nat, p: Proc, child: nat, out: Outside)
    returns (u: State, reply: Reply)
    requires Closed(c, R) && t in R && Alive(t, pid, p) && p.Finalize? && p.fpc == FGated
    requires p.payloadCsr.Some? && p.order in t.db.orders && out.certName !in t.db.certs && Fresh(t, child)
    ensures u in R && Answered(u, pid, p, reply) && Alone(t, u, pid, child)
    ensures !out.csrAccepted ==> u.db == t.db && reply == CsrRefused
    ensures out.csrAccepted && !Enrolls(c, t.db, p.order, p.payloadCsr.value, out) ==>
              && u.db == WithCsrRow(t.db, p.order, p.payloadCsr.value, out.certName, t.now)
              && reply == (if CsrMatches(c, t.db.orders[p.order].identifiers, p.payloadCsr.value) then DryRunOnly
                           else CsrMismatch)
    ensures Enrolls(c, t.db, p.order, p.payloadCsr.value, out) ==>
              && u.db == EnrollTables(c, t.db, p.order, p.payloadCsr.value, out, t.now)
              && AnswerOf(reply) == EnrollAnswer(c, out)
              && (Awaited(c, out) && out.preHook.None? ==> Issued(pid, p.order, p.payloadCsr.value, false) in u.log)
  {
    u := RequestStoresCsr(c, R, t, pid, p, out);
    if !out.csrAccepted {
      reply := CsrRefused;
    } else {
      var mid := RequestIsBound(c, R, u, pid, p.(fpc := FCsrStored(out.certName)));
      assert OnlyMoved(t, mid, pid, mid.procs[pid]);
      if Enrolls(c, t.db, p.order, p.payloadCsr.value, out) {
        u, reply := RequestEnrolls(c, R, mid, pid, p.(fpc := FBound(out.certName)), child, out);
        AloneAfterMove(t, mid, u, pid, child, mid.procs[pid]);
      } else {
        u, reply := mid, mid.procs[pid].fpc.reply;
      }
    }
  }

  lemma ClosedGateAgrees(c: Config, db: Tables, o: string, csr: Option<string>, out: Outside, now: int)
    requires HasStatus(db, o, Ready) && csr.Some? && !GateOpen(db.authzs, o, now)
    ensures OrderTables(c, db, o, csr, out, now) == SetOrder(SetOrder(db, o, Processing), o, Invalid)
    ensures Refusal(c, db, o, csr, out, now) == Some(NotReady)
  {
    assert SetOrder(SetOrder(db, o, Processing), o, Invalid).orders == SetOrder(db, o, Invalid).orders;
  }

  lemma OpenGateAgrees(c: Config, db: Tables, o: string, csr: Option<string>, out: Outside, now: int)
    requires HasStatus(db, o, Ready) && csr.Some? && GateOpen(db.authzs, o, now)
    ensures var claimed, r := SetOrder(db, o, Processing), Refusal(c, db, o, csr, out, now);
            && (r.None? <==> Enrolls(c, claimed, o, csr.value, out))
            && (r.None? ==> OrderTables(c, db, o, csr, out, now) == EnrollTables(c, claimed, o, csr.value, out, now))
            && (!out.csrAccepted ==> r == Some(CsrRefused) && OrderTables(c, db, o, csr, out, now) == claimed)
            && (out.csrAccepted && r.Some? ==>
                  && r == Some(if CsrMatches(c, claimed.orders[o].identifiers, csr.value) then DryRunOnly
                               else CsrMismatch)
                  && OrderTables(c, db, o, csr, out, now) == WithCsrRow(claimed, o, csr.value, out.certName, now))
  {
  }

  /** From the claim on. */
  lemma RequestFinalizes(c: Config, R: iset<State>, t: State, pid: nat, p: Proc, child: nat, out: Outside)
    returns (u: State, reply: Reply)
    requires Closed(c, R) && t in R && Alive(t, pid, p) && p.Finalize? && p.fpc == FSawReady && p.payloadCsr.Some?
    requires HasStatus(t.db, p.order, Ready) && out.certName !in t.db.certs && Fresh(t, child)
    ensures u in R && Answered(u, pid, p, reply) && Alone(t, u, pid, child)
    ensures u.db == OrderTables(c, t.db, p.order, p.payloadCsr, out, t.now)
    ensures AnswerOf(reply) == OrderAnswer(c, t.db, p.order, p.payloadCsr, out, t.now)
    ensures Refusal(c, t.db, p.order, p.payloadCsr, out, t.now).None? && Awaited(c, out) && out.preHook.None? ==>
              Issued(pid, p.order, p.payloadCsr.value, false) in u.log
  {
    u := RequestClaims(c, R, t, pid, p);
    var mid := RequestIsGated(c, R, u, pid, p.(fpc := FClaimed));
    assert OnlyMoved(t, mid, pid, mid.procs[pid]);
    if GateOpen(t.db.authzs, p.order, t.now) {
      OpenGateAgrees(c, t.db, p.order, p.payloadCsr, out, t.now);
      u, reply := RequestRedeems(c, R, mid, pid, p.(fpc := FGated), child, out);
      AloneAfterMove(t, mid, u, pid, child, mid.procs[pid]);
    } else {
      ClosedGateAgrees(c, t.db, p.order, p.payloadCsr, out, t.now);
      u := RequestIsTurnedAway(c, R, mid, pid, p.(fpc := FGateFailed));
      reply := NotReady;
    }
  }

  /** A request on the tables it met, to its answer. */
  lemma RequestRuns(c: Config, R: iset<State>, t: State, pid: nat, p: Proc, child: nat, out: Outside)
    returns (u: State, reply: Reply)
    requires Closed(c, R) && t in R && Alive(t, pid, p) && p.Finalize? && p.fpc == FArrived
    requires out.certName !in t.db.certs && Fresh(t, child)
    ensures u in R && Answered(u, pid, p, reply) && Alone(t, u, pid, child)
    ensures u.db == RequestTables(c, t.db, p.account, p.order, p.payloadCsr, out, t.now)
    ensures AnswerOf(reply) == RequestAnswer(c, t.db, p.account, p.order, p.payloadCsr, out, t.now)
    ensures Owns(t.db, p.account, p.order) && Refusal(c, t.db, p.order, p.payloadCsr, out, t.now).None?
            && Awaited(c, out) && out.preHook.None? ==>
              Issued(pid, p.order, p.payloadCsr.value, false) in u.log
  {
    u := RequestIsOwned(c, R, t, pid, p);
    if !Owns(t.db, p.account, p.order) {
      reply := u.procs[pid].fpc.reply;
    } else {
      u := RequestIsRead(c, R, u, pid, p.(fpc := FOwned));
      if HasStatus(t.db, p.order, Ready) && p.payloadCsr.Some? {
        u, reply := RequestFinalizes(c, R, u, pid, p.(fpc := FSawReady), child, out);
      } else {
        reply := u.procs[pid].fpc.reply;
      }
    }
  }

  // ---------- what comes before ----------

  /** The sweep that a request starts with, where it is configured. */
  lemma RequestSweeps(c: Config, R: iset<State>, t: State, sweep: nat) returns (u: State)
    requires Closed(c, R) && t in R && Fresh(t, sweep)
    ensures u in R && u.db == (if c.expiryCheck then t.db.(orders := SweptOrders(t.db.orders, t.now)) else t.db)
    ensures u.now == t.now && u.dead == t.dead && u.disclosed == t.disclosed && t.log <= u.log
    ensures u.procs.Keys <= t.procs.Keys + {sweep}
    ensures forall x | x in t.procs :: x in u.procs && u.procs[x] == t.procs[x]
  {
    if c.expiryCheck {
      u := OrderSweepRuns(c, R, t, sweep);
    } else {
      u := t;
    }
  }

  /** The read that follows. */
  lemma RequestReads(c: Config, R: iset<State>, t: State, o: string) returns (u: State)
    requires Closed(c, R) && t in R && o in t.disclosed
    ensures u in R && u.db == ReadOrder(t.db, o)
    ensures u.now == t.now && u.dead == t.dead && u.disclosed == t.disclosed && u.procs == t.procs && t.log <= u.log
  {
    if HasStatus(t.db, o, Pending) && AllValid(t.db.authzs, o) {
      u := PromotesAtOnce(c, R, t, o);
    } else {
      u := t;
    }
  }

  lemma RequestMeets(c: Config, R: iset<State>, t: State, o: string, sweep: nat) returns (u: State)
    requires Closed(c, R) && t in R && Fresh(t, sweep) && o in t.disclosed
    ensures u in R && u.db == Met(c, t.db, o, t.now)
    ensures u.now == t.now && u.dead == t.dead && u.disclosed == t.disclosed && u.procs.Keys <= t.procs.Keys + {sweep}
  {
    u := RequestSweeps(c, R, t, sweep);
    u := RequestReads(c, R, u, o);
  }

  lemma MetKeepsOwner(c: Config, db: Tables, account: string, o: string, now: int)
    ensures Owns(Met(c, db, o, now), account, o) <==> Owns(db, account, o)
    ensures Met(c, db, o, now).certs == db.certs
  {
  }

  /** For every finalize request and every behaviour of the CA, the store, the hooks and the
      clock, what the sequential server does to the tables and answers - from the sweep and
      the read of the order that come first to message and detail of the answer - is done
      and answered by some interleaving of the sweep, the request and its thread alone; so
      all that holds in every run holds for it. */
  lemma FinalizeIsARun(c: Config, s: State, account: string, o: string, csr: Option<string>, sweep: nat, pid: nat,
                       child: nat, out: Outside) returns (u: State, reply: Reply)
    requires o in s.disclosed && out.certName !in s.db.certs
    requires Fresh(s, sweep) && Fresh(s, pid) && Fresh(s, child) && sweep != pid && sweep != child && pid != child
    ensures Reaches(c, s, u) && Answered(u, pid, Finalize(account, o, csr, FArrived), reply)
    ensures u.db == RequestTables(c, Met(c, s.db, o, s.now), account, o, csr, out, s.now)
    ensures AnswerOf(reply) == RequestAnswer(c, Met(c, s.db, o, s.now), account, o, csr, out, s.now)
    ensures u.now == s.now && u.dead == s.dead && u.disclosed == s.disclosed
    ensures u.procs.Keys <= s.procs.Keys + {sweep, pid, child}
    ensures Owns(s.db, account, o) && Refusal(c, Met(c, s.db, o, s.now), o, csr, out, s.now).None?
            && Awaited(c, out) && out.preHook.None? ==>
              Issued(pid, o, csr.value, false) in u.log
  {
    ReachableIsClosed(c, s);
    var R, p := Reachable(c, s), Finalize(account, o, csr, FArrived);
    MetKeepsOwner(c, s.db, account, o, s.now);
    var t := RequestMeets(c, R, s, o, sweep);
    t := Begin(c, R, t, pid, p);
    u, reply := RequestRuns(c, R, t, pid, p, child, out);
  }
}
