/** What a callback of the CA can touch in any run: the orders whose CSR has the key of the
    certificate it delivers. */
module TriggerKeys {
  import opened AcmeTables
  import opened OrderMachine
  import opened Growth

  /** The row of this hit has a CSR with the key of the certificate. */
  predicate Keyed(c: Config, db: Tables, raw: string, k: string, o: string) {
    k in db.certs && db.certs[k].order == o && db.certs[k].csr != "" && c.sameKey(db.certs[k].csr, raw)
  }

  predicate TodoKeyed(c: Config, db: Tables, p: Proc) {
    p.Trigger? ==> forall i | 0 <= i < |p.todo| :: Keyed(c, db, p.raw, p.todo[i].0, p.todo[i].1)
  }

  ghost predicate AllKeyed(c: Config, s: State) {
    forall pid | pid in s.procs :: TodoKeyed(c, s.db, s.procs[pid])
  }

  lemma KeyedStays(c: Config, s: State, t: State, p: Proc)
    requires TodoKeyed(c, s.db, p) && Grows(s, t)
    ensures TodoKeyed(c, t.db, p)
  {
    if p.Trigger? {
      forall i | 0 <= i < |p.todo| ensures Keyed(c, t.db, p.raw, p.todo[i].0, p.todo[i].1) {
        assert Keyed(c, s.db, p.raw, p.todo[i].0, p.todo[i].1);
      }
    }
  }

  /** A turn adds nothing to the list of a callback, and starts none. */
  predicate AddsNoHit(p: Proc, t: Turn) {
    && (t.Turn? && t.proc.Trigger? ==>
          p.Trigger? && t.proc.raw == p.raw
          && (t.proc.todo == p.todo || (p.todo != [] && t.proc.todo == p.todo[1..])))
    && (t.Spawn? ==> !t.proc.Trigger? && !t.thread.Trigger?)
    && (t.Disclose? ==> !t.proc.Trigger?)
  }

  lemma FinalizeAddsNoHit(c: Config, s: State, pid: nat, p: Proc, w: World)
    requires p.Finalize?
    ensures AddsNoHit(p, AdmitTurn(c, s, pid, p, w)) && AddsNoHit(p, RedeemTurn(c, s, pid, p, w))
  {
  }

  lemma RequestAddsNoHit(c: Config, s: State, p: Proc, w: World)
    ensures p.Enroll? ==> AddsNoHit(p, EnrollTurn(c, s, p, w))
    ensures p.Create? ==> AddsNoHit(p, CreateTurn(c, s, p, w))
    ensures p.Fetch? ==> AddsNoHit(p, FetchTurn(c, s, p, w))
  {
  }

  lemma OthersAddNoHit(c: Config, s: State, p: Proc, w: World)
    ensures p.Promote? ==> AddsNoHit(p, PromoteTurn(s, p, w))
    ensures p.Poll? ==> AddsNoHit(p, PollTurn(s, p, w))
    ensures p.Trigger? ==> AddsNoHit(p, TriggerTurn(s, p, w))
    ensures p.Validate? ==> AddsNoHit(p, ValidateTurn(s, p, w))
    ensures p.SweepOrders? ==> AddsNoHit(p, SweepOrdersTurn(p, w))
    ensures p.SweepAuthzs? ==> AddsNoHit(p, SweepAuthzsTurn(p, w))
  {
  }

  lemma TurnAddsNoHit(c: Config, s: State, pid: nat, p: Proc, w: World)
    ensures AddsNoHit(p, TurnOf(c, s, pid, p, w))
  {
    match p
    case Finalize(_, _, _, _) => FinalizeAddsNoHit(c, s, pid, p, w);
    case _ =>
      RequestAddsNoHit(c, s, p, w);
      OthersAddNoHit(c, s, p, w);
  }

  lemma LaterListIsKeyed(c: Config, db: Tables, p: Proc, t: Turn)
    requires TodoKeyed(c, db, p) && AddsNoHit(p, t) && t.Turn?
    ensures TodoKeyed(c, db, t.proc)
  {
    if t.proc.Trigger? {
      forall i | 0 <= i < |t.proc.todo|
        ensures Keyed(c, db, t.proc.raw, t.proc.todo[i].0, t.proc.todo[i].1)
      {
        assert t.proc.todo[i] == if t.proc.todo == p.todo then p.todo[i] else p.todo[i + 1];
      }
    }
  }

  lemma TakeIsKeyed(c: Config, s: State, pid: nat, turn: Turn)
    requires AllKeyed(c, s) && pid in s.procs && AddsNoHit(s.procs[pid], turn) && Grows(s, Take(s, pid, turn))
    ensures AllKeyed(c, Take(s, pid, turn))
  {
    var t := Take(s, pid, turn);
    forall q | q in t.procs ensures TodoKeyed(c, t.db, t.procs[q]) {
      if q in s.procs {
        KeyedStays(c, s, t, s.procs[q]);
      }
      if q == pid && turn.Turn? {
        LaterListIsKeyed(c, t.db, s.procs[pid], turn);
      }
    }
  }

  lemma StepIsKeyed(c: Config, s: State, a: Action)
    requires AllCarry(s) && AllKeyed(c, s)
    ensures AllKeyed(c, Step(c, s, a))
  {
    match a
    case Advance(pid, w) =>
      if pid in s.procs && pid !in s.dead {
        AdvanceGrows(c, s, pid, w);
        TurnAddsNoHit(c, s, pid, s.procs[pid], w);
        TakeIsKeyed(c, s, pid, TurnOf(c, s, pid, s.procs[pid], w));
      }
    case Start(pid, p) =>
    case _ =>
      StepGrows(c, s, a);
      OtherActions(c, s, a);
      forall q | q in s.procs ensures TodoKeyed(c, Step(c, s, a).db, s.procs[q]) {
        KeyedStays(c, s, Step(c, s, a), s.procs[q]);
      }
  }

  lemma {:induction false} RunIsKeyed(c: Config, acts: seq<Action>)
    ensures AllCarry(Run(c, acts)) && AllKeyed(c, Run(c, acts))
  {
    if acts != [] {
      RunIsKeyed(c, acts[..|acts| - 1]);
      StepGrows(c, Run(c, acts[..|acts| - 1]), acts[|acts| - 1]);
      StepIsKeyed(c, Run(c, acts[..|acts| - 1]), acts[|acts| - 1]);
    }
  }

  /** A turn of a callback is at most one of the two statements for its next hit. */
  lemma TriggerWrites(s: State, p: Proc, w: World)
    requires p.Trigger?
    ensures var turn := TriggerTurn(s, p, w);
            turn.Stuck?
            || (turn.Turn?
                && (turn.write == NoWrite
                    || (p.todo != []
                        && turn.write in {CertTo(p.todo[0].0, p.bundle, p.raw, 0, 0), OrderTo(p.todo[0].1, Valid)})))
  {
  }

  lemma TriggerTables(c: Config, s: State, pid: nat, w: World)
    requires pid in s.procs && s.procs[pid].Trigger?
    ensures var p, e := s.procs[pid], Step(c, s, Advance(pid, w)).db;
            || e == s.db
            || (p.todo != []
                && (e == StoreCert(s.db, p.todo[0].0, p.bundle, p.raw, 0, 0)
                    || e == SetOrder(s.db, p.todo[0].1, Valid)))
  {
    var turn := TurnOf(c, s, pid, s.procs[pid], w);
    TriggerWrites(s, s.procs[pid], w);
    assert turn == TriggerTurn(s, s.procs[pid], w);
    if pid !in s.dead && turn.Turn? {
      assert Step(c, s, Advance(pid, w)).db == Apply(s.db, turn.write);
    }
  }

  lemma OneHitChanges(db: Tables, k: string, o: string, bundle: string, raw: string)
    requires k in db.certs
    ensures var e, row := StoreCert(db, k, bundle, raw, 0, 0), db.certs[k];
            && e == db.(certs := e.certs)
            && e.certs == db.certs[k := CertRow(row.order, row.csr, bundle, raw, 0, 0, row.created)]
    ensures var e := SetOrder(db, o, Valid);
            && e == db.(orders := e.orders)
            && e.orders == if o in db.orders then db.orders[o := db.orders[o].(status := Valid)] else db.orders
  {
  }

  /** Whatever else runs in between, a turn of a callback changes no row but that of a CSR with the
      key of its certificate, to this certificate without dates, and no order but one with such
      a row, to valid. An order whose CSRs all have another key is out of its reach. */
  lemma TriggerServesItsKey(c: Config, acts: seq<Action>, pid: nat, w: World)
    requires pid in Run(c, acts).procs && Run(c, acts).procs[pid].Trigger?
    ensures var s := Run(c, acts);
            var p, t := s.procs[pid], Step(c, s, Advance(pid, w));
            && t.db.authzs == s.db.authzs && t.db.challenges == s.db.challenges
            && t.db.certs.Keys == s.db.certs.Keys && t.db.orders.Keys == s.db.orders.Keys
            && (forall k | k in s.db.certs && t.db.certs[k] != s.db.certs[k] ::
                  var row := s.db.certs[k];
                  && row.csr != "" && c.sameKey(row.csr, p.raw)
                  && t.db.certs[k] == CertRow(row.order, row.csr, p.bundle, p.raw, 0, 0, row.created))
            && (forall o | o in s.db.orders && t.db.orders[o] != s.db.orders[o] ::
                  && t.db.orders[o] == s.db.orders[o].(status := Valid)
                  && exists k :: k in s.db.certs && s.db.certs[k].order == o
                       && s.db.certs[k].csr != "" && c.sameKey(s.db.certs[k].csr, p.raw))
  {
    RunIsKeyed(c, acts);
    var s := Run(c, acts);
    var p := s.procs[pid];
    assert TodoKeyed(c, s.db, p);
    TriggerTables(c, s, pid, w);
    if p.todo != [] {
      assert Keyed(c, s.db, p.raw, p.todo[0].0, p.todo[0].1);
      OneHitChanges(s.db, p.todo[0].0, p.todo[0].1, p.bundle, p.raw);
    }
  }
}
