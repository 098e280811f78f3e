/** Runs in which an order becomes valid without its certificate. */
module LostCertificates {
  import opened AcmeTables
  import opened OrderMachine
  import opened FinalizeServer
  import opened Reaching
  import opened OrderLife
  import LateCertificates

  // ---------- the awaited thread ----------

  /** A certificate that the CA issued and the store failed to take: some run from the start
      ends with the order valid and without a certificate, whatever its identifiers. */
  lemma StoreFailureLeavesNoCertificate(c: Config, o: string, account: string, ids: seq<Identifier>, names: seq<string>,
                                        chs: seq<string>, csr: string, out: Outside) returns (u: State)
    requires !c.simulation && !c.jit && c.prevalidation == {} && account != ""
    requires ids != [] && |names| == |ids| == |chs| && Distinct(names) && Distinct(chs)
    requires CsrMatches(c, ids, csr) && !DryRun(c, "")
    requires out.csrAccepted && WentThrough(c, out) && out.store == StoreFails
    ensures Reaches(c, Initial(), u)
    ensures HasStatus(u.db, o, Valid) && !HasCertificate(u.db, o)
  {
    ReachableIsClosed(c, Initial());
    u := OrderWentThrough(c, Reachable(c, Initial()), o, account, ids, names, chs, csr, out);
  }

  // ---------- polling ----------

  lemma PollHears(c: Config, R: iset<State>, t: State, pid: nat, k: string, o: string,
                  answer: LateCertificates.PollAnswer)
    returns (u: State)
    requires Closed(c, R) && t in R && Alive(t, pid, Poll(k, o, QAsk))
    ensures u in R && u.db == t.db
    ensures OnlyMoved(t, u, pid, Poll(k, o,
              if answer.Raises? then QEnd
              else if answer.cert != "" then QStore(answer.cert, answer.raw)
              else if answer.rejected then QInvalid else QEnd))
  {
    var w := if answer.Raises? then CALM.(verdict := Raised)
             else CALM.(answer := CaAnswer("", answer.cert, answer.raw, "", answer.rejected));
    u := GoPoll(c, R, t, pid, Poll(k, o, QAsk), w);
  }

  lemma PollStores(c: Config, R: iset<State>, t: State, pid: nat, p: Proc, issue: int, expire: int, lost: bool)
    returns (u: State)
    requires Closed(c, R) && t in R && Alive(t, pid, p) && p.Poll? && p.qpc.QStore?
    ensures u in R
    ensures u.db == if lost then t.db else StoreCert(t.db, p.certName, p.qpc.bundle, p.qpc.raw, issue, expire)
    ensures OnlyMoved(t, u, pid, p.(qpc := QValid))
  {
    u := GoPoll(c, R, t, pid, p, CALM.(issue := issue, until := expire, lost := lost));
  }

  lemma PollMarks(c: Config, R: iset<State>, t: State, pid: nat, p: Proc, lost: bool) returns (u: State)
    requires Closed(c, R) && t in R && Alive(t, pid, p) && p.Poll? && (p.qpc == QValid || p.qpc == QInvalid)
    ensures u in R && OnlyMoved(t, u, pid, p.(qpc := QEnd))
    ensures u.db == if lost then t.db else SetOrder(t.db, p.order, if p.qpc == QValid then Valid else Invalid)
  {
    u := GoPoll(c, R, t, pid, p, CALM.(lost := lost));
  }

  /** The polling process, undisturbed, does to the tables what the sequential poll does. */
  lemma PollRuns(c: Config, R: iset<State>, t: State, pid: nat, k: string, o: string,
                 answer: LateCertificates.PollAnswer, issue: int, expire: int, storeLost: bool, orderLost: bool)
    returns (u: State)
    requires Closed(c, R) && t in R && Alive(t, pid, Poll(k, o, QAsk))
    ensures u in R && OnlyMoved(t, u, pid, Poll(k, o, QEnd))
    ensures u.db == LateCertificates.AfterPoll(t.db, k, o, answer, issue, expire, storeLost, orderLost)
  {
    u := PollHears(c, R, t, pid, k, o, answer);
    if answer.Says? && answer.cert != "" {
      u := PollStores(c, R, u, pid, Poll(k, o, QStore(answer.cert, answer.raw)), issue, expire, storeLost);
      u := PollMarks(c, R, u, pid, Poll(k, o, QValid), orderLost);
    } else if answer.Says? && answer.rejected {
      u := PollMarks(c, R, u, pid, Poll(k, o, QInvalid), orderLost);
    }
  }

  lemma PollIsARun(c: Config, s: State, pid: nat, k: string, o: string, answer: LateCertificates.PollAnswer,
                   issue: int, expire: int, storeLost: bool, orderLost: bool) returns (u: State)
    requires Fresh(s, pid) && HasStatus(s.db, o, Processing) && k in s.db.certs && s.db.certs[k].order == o
    ensures Reaches(c, s, u)
    ensures u.db == LateCertificates.AfterPoll(s.db, k, o, answer, issue, expire, storeLost, orderLost)
  {
    ReachableIsClosed(c, s);
    u := Begin(c, Reachable(c, s), s, pid, Poll(k, o, QAsk));
    u := PollRuns(c, Reachable(c, s), u, pid, k, o, answer, issue, expire, storeLost, orderLost);
  }

  // ---------- an order that waits for its certificate ----------

  /** The order is in processing and its CSR is on file, but no certificate. */
  predicate Waits(db: Tables, o: string, k: string, csr: string) {
    && HasStatus(db, o, Processing) && !HasCertificate(db, o)
    && k in db.certs && db.certs[k].order == o && db.certs[k].csr == csr
  }

  /** The CA handed out an identifier to poll with. */
  lemma OrderWaits(c: Config, R: iset<State>, o: string, account: string, ids: seq<Identifier>, names: seq<string>,
                   chs: seq<string>, csr: string, out: Outside) returns (u: State)
    requires Closed(c, R) && Initial() in R
    requires !c.simulation && !c.jit && c.prevalidation == {} && account != ""
    requires ids != [] && |names| == |ids| == |chs| && Distinct(names) && Distinct(chs)
    requires CsrMatches(c, ids, csr) && !DryRun(c, "") && out.csrAccepted && Awaited(c, out) && PollIdGiven(out)
    ensures u in R && Waits(u.db, o, out.certName, csr)
    ensures Fresh(u, 2 * |names| + 3)
  {
    var t := OrderIsProved(c, R, o, account, ids, names, chs);
    ProvedOpensGate(t, o, account, ids, names, chs);
    u := ProvedIsFinalized(c, R, t, o, account, ids, names, chs, csr, out);
    assert SetOrder(SetOrder(t.db, o, Ready), o, Processing).orders == SetOrder(t.db, o, Processing).orders;
    PolledOrderWaits(c, SetOrder(t.db, o, Processing), o, csr, out, t.now);
  }

  lemma PolledOrderWaits(c: Config, db: Tables, o: string, csr: string, out: Outside, now: int)
    requires HasStatus(db, o, Processing) && db.certs == map[] && Awaited(c, out) && PollIdGiven(out)
    ensures Waits(EnrollTables(c, db, o, csr, out, now), o, out.certName, csr)
  {
    OutcomeAgrees(c, db, o, csr, out, now);
  }

  lemma StillNoCertificate(db: Tables, o: string, status: Status)
    requires !HasCertificate(db, o)
    ensures !HasCertificate(SetOrder(db, o, status), o)
  {
  }

  /** A polled certificate that the store fails to take: the order becomes valid without it. */
  lemma PollLosesCertificate(c: Config, o: string, account: string, ids: seq<Identifier>, names: seq<string>,
                             chs: seq<string>, csr: string, out: Outside, bundle: string, raw: string)
    returns (u: State)
    requires !c.simulation && !c.jit && c.prevalidation == {} && account != "" && bundle != ""
    requires ids != [] && |names| == |ids| == |chs| && Distinct(names) && Distinct(chs)
    requires CsrMatches(c, ids, csr) && !DryRun(c, "") && out.csrAccepted && Awaited(c, out) && PollIdGiven(out)
    ensures Reaches(c, Initial(), u)
    ensures HasStatus(u.db, o, Valid) && !HasCertificate(u.db, o)
  {
    ReachableIsClosed(c, Initial());
    var t := OrderWaits(c, Reachable(c, Initial()), o, account, ids, names, chs, csr, out);
    var answer := LateCertificates.Says(bundle, raw, false);
    u := PollIsARun(c, t, 2 * |names| + 3, out.certName, o, answer, 0, 0, true, false);
    ReachesTransitive(c, Initial(), t, u);
    StillNoCertificate(t.db, o, Valid);
  }

  // ---------- the trigger ----------

  lemma TriggerStores(c: Config, R: iset<State>, t: State, pid: nat, p: Proc, lost: bool) returns (u: State)
    requires Closed(c, R) && t in R && Alive(t, pid, p) && p.Trigger? && p.todo != [] && !p.stored
    ensures u in R && OnlyMoved(t, u, pid, p.(stored := true))
    ensures u.db == if lost then t.db else StoreCert(t.db, p.todo[0].0, p.bundle, p.raw, 0, 0)
  {
    u := GoTrigger(c, R, t, pid, p, CALM.(lost := lost));
  }

  lemma TriggerMarks(c: Config, R: iset<State>, t: State, pid: nat, p: Proc, lost: bool) returns (u: State)
    requires Closed(c, R) && t in R && Alive(t, pid, p) && p.Trigger? && p.todo != [] && p.stored
    ensures u in R && OnlyMoved(t, u, pid, p.(todo := p.todo[1..], stored := false))
    ensures u.db == if lost then t.db else SetOrder(t.db, p.todo[0].1, Valid)
  {
    u := GoTrigger(c, R, t, pid, p, CALM.(lost := lost));
  }

  lemma TriggerServes(c: Config, R: iset<State>, t: State, pid: nat, p: Proc, storeLost: bool, orderLost: bool)
    returns (u: State)
    requires Closed(c, R) && t in R && Alive(t, pid, p) && p.Trigger? && p.todo != [] && !p.stored
    ensures u in R && OnlyMoved(t, u, pid, p.(todo := p.todo[1..]))
    ensures u.db == LateCertificates.StoredHit(t.db, p.todo[0], p.bundle, p.raw, storeLost, orderLost)
  {
    u := TriggerStores(c, R, t, pid, p, storeLost);
    u := TriggerMarks(c, R, u, pid, p.(stored := true), orderLost);
  }

  /** From the n-th hit on. */
  lemma {:induction false} TriggerRuns(c: Config, R: iset<State>, t: State, db: Tables, pid: nat,
                                       hits: seq<(string, string)>, n: nat, bundle: string, raw: string,
                                       lost: LateCertificates.Losses)
    returns (u: State)
    requires Closed(c, R) && t in R && n <= |hits| && Alive(t, pid, Trigger(hits[n..], bundle, raw, false))
    requires t.db == LateCertificates.Stored(db, hits[..n], bundle, raw, lost)
    ensures u in R && OnlyMoved(t, u, pid, Trigger([], bundle, raw, false))
    ensures u.db == LateCertificates.Stored(db, hits, bundle, raw, lost)
    decreases |hits| - n
  {
    if n == |hits| {
      assert hits[..n] == hits && hits[n..] == [];
      u := t;
    } else {
      var p := Trigger(hits[n..], bundle, raw, false);
      assert hits[n..][1..] == hits[n + 1..] && hits[..n + 1] == hits[..n] + [hits[n]];
      LateCertificates.OneMoreStored(db, hits[..n], hits[n], bundle, raw, lost);
      u := TriggerServes(c, R, t, pid, p, lost.store(n), lost.order(n));
      u := TriggerRuns(c, R, u, db, pid, hits, n + 1, bundle, raw, lost);
    }
  }

  /** What the sequential callback does to the tables, for all its hits and whichever writes
      fail, is done by the callback process alone. */
  lemma TriggerIsARun(c: Config, s: State, pid: nat, hits: seq<(string, string)>, bundle: string, raw: string,
                      lost: LateCertificates.Losses) returns (u: State)
    requires Fresh(s, pid) && bundle != "" && raw != ""
    requires forall h | h in hits :: TriggerHit(c, s.db, raw, h)
    ensures Reaches(c, s, u) && u.db == LateCertificates.Stored(s.db, hits, bundle, raw, lost)
  {
    ReachableIsClosed(c, s);
    LateCertificates.NothingStored(s.db, bundle, raw, lost);
    assert hits[0..] == hits && hits[..0] == [];
    u := Begin(c, Reachable(c, s), s, pid, Trigger(hits, bundle, raw, false));
    u := TriggerRuns(c, Reachable(c, s), u, s.db, pid, hits, 0, bundle, raw, lost);
  }

  /** One hit, whose store succeeds or not. */
  lemma OneHitIsARun(c: Config, s: State, pid: nat, k: string, o: string, bundle: string, raw: string, storeLost: bool)
    returns (u: State)
    requires Fresh(s, pid) && bundle != "" && raw != "" && TriggerHit(c, s.db, raw, (k, o))
    ensures Reaches(c, s, u)
    ensures u.db == SetOrder(if storeLost then s.db else StoreCert(s.db, k, bundle, raw, 0, 0), o, Valid)
  {
    var lost := LateCertificates.Losses(i => storeLost, i => false);
    u := TriggerIsARun(c, s, pid, [(k, o)], bundle, raw, lost);
    LateCertificates.NothingStored(s.db, bundle, raw, lost);
    LateCertificates.OneMoreStored(s.db, [], (k, o), bundle, raw, lost);
    assert [] + [(k, o)] == [(k, o)];
  }

  /** A triggered certificate that the store fails to take. */
  lemma TriggerLosesCertificate(c: Config, o: string, account: string, ids: seq<Identifier>, names: seq<string>,
                                chs: seq<string>, csr: string, out: Outside, bundle: string, raw: string)
    returns (u: State)
    requires !c.simulation && !c.jit && c.prevalidation == {} && account != ""
    requires bundle != "" && raw != "" && csr != "" && c.sameKey(csr, raw)
    requires ids != [] && |names| == |ids| == |chs| && Distinct(names) && Distinct(chs)
    requires CsrMatches(c, ids, csr) && !DryRun(c, "") && out.csrAccepted && Awaited(c, out) && PollIdGiven(out)
    ensures Reaches(c, Initial(), u)
    ensures HasStatus(u.db, o, Valid) && !HasCertificate(u.db, o)
  {
    ReachableIsClosed(c, Initial());
    var t := OrderWaits(c, Reachable(c, Initial()), o, account, ids, names, chs, csr, out);
    u := OneHitIsARun(c, t, 2 * |names| + 3, out.certName, o, bundle, raw, true);
    ReachesTransitive(c, Initial(), t, u);
    StillNoCertificate(t.db, o, Valid);
  }
}
