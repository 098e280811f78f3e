/** Whose certificates are reused: in every run, those of the account itself. */
module ReuseOrigin {
  import opened AcmeTables
  import opened OrderMachine
  import opened Growth

  /** Row k holds a certificate for this CSR, of an order of the account of order o. */
  predicate OwnRow(db: Tables, k: string, o: string, csr: string) {
    && k in db.certs && db.certs[k].csr == csr && db.certs[k].cert != ""
    && o in db.orders && db.certs[k].order in db.orders
    && db.orders[db.certs[k].order].account == db.orders[o].account && db.orders[o].account != ""
  }

  ghost predicate ReusesOwn(db: Tables, e: Event) {
    e.Issued? && e.reused ==> exists k :: OwnRow(db, k, e.order, e.csr)
  }

  lemma ReusesOwnStays(s: State, t: State, e: Event)
    requires ReusesOwn(s.db, e) && Grows(s, t)
    ensures ReusesOwn(t.db, e)
  {
    if e.Issued? && e.reused {
      var k :| OwnRow(s.db, k, e.order, e.csr);
      assert OwnRow(t.db, k, e.order, e.csr);
    }
  }

  /** Only an enrollment thread says that it reuses a certificate. */
  predicate SaysReused(t: Turn) {
    t.Turn? && t.note.Some? && t.note.value.Issued? && t.note.value.reused
  }

  lemma RequestNeverReuses(c: Config, s: State, pid: nat, p: Proc, w: World)
    requires p.Finalize?
    ensures !SaysReused(AdmitTurn(c, s, pid, p, w)) && !SaysReused(RedeemTurn(c, s, pid, p, w))
  {
  }

  lemma OthersNeverReuse(c: Config, s: State, p: Proc, w: World)
    ensures p.Create? ==> !SaysReused(CreateTurn(c, s, p, w))
    ensures p.Promote? ==> !SaysReused(PromoteTurn(s, p, w))
    ensures p.Poll? ==> !SaysReused(PollTurn(s, p, w))
    ensures p.Trigger? ==> !SaysReused(TriggerTurn(s, p, w))
    ensures p.Validate? ==> !SaysReused(ValidateTurn(s, p, w))
    ensures p.Fetch? ==> !SaysReused(FetchTurn(c, s, p, w))
    ensures p.SweepOrders? ==> !SaysReused(SweepOrdersTurn(p, w))
    ensures p.SweepAuthzs? ==> !SaysReused(SweepAuthzsTurn(p, w))
  {
  }

  /** At its own moment, a thread that reuses a certificate has found one for its CSR that is
      stored, belongs to the account of its order, is as young as the configuration asks, and has
      not expired; and it goes on with that one. */
  lemma ReusedIsFresh(c: Config, s: State, p: Proc, w: World)
    requires p.Enroll? && SaysReused(EnrollTurn(c, s, p, w))
    ensures var t := EnrollTurn(c, s, p, w);
            && t.note.value.order == p.order && t.note.value.csr == p.csr
            && OwnRow(s.db, w.name, p.order, p.csr)
            && s.db.certs[w.name].raw != ""
            && s.now - s.db.certs[w.name].created <= c.reuseWindow && c.reuseWindow != 0
            && s.now <= s.db.certs[w.name].expireUts
            && t.proc.Enroll? && t.proc.epc == EGotCert(s.db.certs[w.name].cert, s.db.certs[w.name].raw)
  {
  }

  lemma TurnReusesOwn(c: Config, s: State, pid: nat, p: Proc, w: World)
    requires SaysReused(TurnOf(c, s, pid, p, w))
    ensures ReusesOwn(s.db, TurnOf(c, s, pid, p, w).note.value)
  {
    match p
    case Finalize(_, _, _, _) => RequestNeverReuses(c, s, pid, p, w);
    case Enroll(_, _, _, _, _) => ReusedIsFresh(c, s, p, w);
    case _ => OthersNeverReuse(c, s, p, w);
  }

  ghost predicate AllReuseOwn(s: State) {
    forall i | 0 <= i < |s.log| :: ReusesOwn(s.db, s.log[i])
  }

  lemma TakeReusesOwn(s: State, pid: nat, turn: Turn)
    requires AllReuseOwn(s) && Grows(s, Take(s, pid, turn))
    requires SaysReused(turn) ==> ReusesOwn(s.db, turn.note.value)
    ensures AllReuseOwn(Take(s, pid, turn))
  {
    var t := Take(s, pid, turn);
    forall i | 0 <= i < |t.log| ensures ReusesOwn(t.db, t.log[i]) {
      assert t.log[i] == if i < |s.log| then s.log[i] else turn.note.value;
      ReusesOwnStays(s, t, t.log[i]);
    }
  }

  lemma StepReusesOwn(c: Config, s: State, a: Action)
    requires AllCarry(s) && AllReuseOwn(s)
    ensures AllReuseOwn(Step(c, s, a))
  {
    if a.Advance? && a.pid in s.procs && a.pid !in s.dead {
      AdvanceGrows(c, s, a.pid, a.world);
      var turn := TurnOf(c, s, a.pid, s.procs[a.pid], a.world);
      if SaysReused(turn) {
        TurnReusesOwn(c, s, a.pid, s.procs[a.pid], a.world);
      }
      TakeReusesOwn(s, a.pid, turn);
    } else if !a.Advance? && !a.Start? {
      StepGrows(c, s, a);
      OtherActions(c, s, a);
      var t := Step(c, s, a);
      forall i | 0 <= i < |t.log| ensures ReusesOwn(t.db, t.log[i]) {
        assert i < |s.log| ==> t.log[i] == s.log[i];
        ReusesOwnStays(s, t, t.log[i]);
      }
    }
  }

  lemma {:induction false} RunReusesOwn(c: Config, acts: seq<Action>)
    ensures AllCarry(Run(c, acts)) && AllReuseOwn(Run(c, acts))
  {
    if acts != [] {
      RunReusesOwn(c, acts[..|acts| - 1]);
      StepGrows(c, Run(c, acts[..|acts| - 1]), acts[|acts| - 1]);
      StepReusesOwn(c, Run(c, acts[..|acts| - 1]), acts[|acts| - 1]);
    }
  }

  /** In every run, behind each reused certificate there is a stored one for the very same CSR
      in an order of the same account. */
  lemma ReusedIsOwn(c: Config, acts: seq<Action>, i: nat)
    requires i < |Run(c, acts).log| && Run(c, acts).log[i].Issued? && Run(c, acts).log[i].reused
    ensures var db, e := Run(c, acts).db, Run(c, acts).log[i];
            && e.order in db.orders && db.orders[e.order].account != ""
            && exists k :: k in db.certs && db.certs[k].csr == e.csr && db.certs[k].cert != ""
                 && db.certs[k].order in db.orders
                 && db.orders[db.certs[k].order].account == db.orders[e.order].account
  {
    RunReusesOwn(c, acts);
    var s := Run(c, acts);
    assert ReusesOwn(s.db, s.log[i]);
    var k :| OwnRow(s.db, k, s.log[i].order, s.log[i].csr);
  }
}
