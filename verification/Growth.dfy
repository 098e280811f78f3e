/** What no step of any process ever takes back. */
module Growth {
  import opened AcmeTables
  import opened OrderMachine

  ghost predicate OrdersGrow(d: Tables, e: Tables) {
    forall o | o in d.orders ::
      && o in e.orders
      && e.orders[o].account == d.orders[o].account
      && e.orders[o].identifiers == d.orders[o].identifiers
      && e.orders[o].profile == d.orders[o].profile
  }

  ghost predicate AuthzsGrow(d: Tables, e: Tables) {
    && (forall a | a in d.authzs ::
          a in e.authzs
          && e.authzs[a].order == d.authzs[a].order
          && e.authzs[a].identifier == d.authzs[a].identifier)
    && (forall ch | ch in d.challenges ::
          ch in e.challenges && e.challenges[ch].authz == d.challenges[ch].authz)
  }

  ghost predicate CertsGrow(d: Tables, e: Tables) {
    forall k | k in d.certs ::
      && k in e.certs
      && e.certs[k].order == d.certs[k].order
      && e.certs[k].csr == d.certs[k].csr
      && (d.certs[k].cert != "" ==> e.certs[k].cert != "")
  }

  /** Rows stay, and keep the columns that no statement of the server rewrites;
      a stored certificate stays stored. */
  ghost predicate TablesGrow(d: Tables, e: Tables) {
    OrdersGrow(d, e) && AuthzsGrow(d, e) && CertsGrow(d, e)
  }

  /** Answers and history stay as they are, and a process keeps its task: only its
      program counter and work list move. */
  ghost predicate Grows(s: State, t: State) {
    && TablesGrow(s.db, t.db)
    && (forall o | o in s.disclosed :: o in t.disclosed && t.disclosed[o] == s.disclosed[o])
    && s.log <= t.log
    && (forall pid | pid in s.procs :: pid in t.procs && SameTask(s.procs[pid], t.procs[pid]))
  }

  predicate SameTask(p: Proc, q: Proc) {
    match p
    case Create(o, account, ids, profile, _, _) =>
      q.Create? && q.order == o && q.account == account && q.identifiers == ids && q.profile == profile
    case Promote(o, _) => q.Promote? && q.order == o
    case Finalize(account, o, csr, _) => q.Finalize? && q.account == account && q.order == o && q.payloadCsr == csr
    case Enroll(parent, o, csr, k, _) =>
      q.Enroll? && q.parent == parent && q.order == o && q.csr == csr && q.certName == k
    case Poll(k, o, _) => q.Poll? && q.certName == k && q.order == o
    case Trigger(_, bundle, raw, _) => q.Trigger? && q.bundle == bundle && q.raw == raw
    case Validate(account, ch, _) => q.Validate? && q.account == account && q.challenge == ch
    case Fetch(a, _) => q.Fetch? && q.authz == a
    case SweepOrders(_) => q.SweepOrders?
    case SweepAuthzs(_) => q.SweepAuthzs?
  }

  /** Every certificate text a process is about to store is non-empty. */
  predicate CarriesCert(p: Proc) {
    && (p.Enroll? && p.epc.EGotCert? ==> p.epc.cert != "")
    && (p.Poll? && p.qpc.QStore? ==> p.qpc.bundle != "")
    && (p.Trigger? ==> p.bundle != "")
  }

  ghost predicate AllCarry(s: State) {
    forall pid | pid in s.procs :: CarriesCert(s.procs[pid])
  }

  /** What a turn hands on: its task, and never an empty certificate. */
  predicate Tidy(p: Proc, t: Turn) {
    match t
    case Stuck => true
    case Turn(q, write, _) => SameTask(p, q) && CarriesCert(q) && (write.CertTo? ==> write.cert != "")
    case Spawn(q, _, thread) => SameTask(p, q) && CarriesCert(q) && CarriesCert(thread)
    case Disclose(q, _, _) => SameTask(p, q) && CarriesCert(q)
  }

  lemma AdmitTidy(c: Config, s: State, pid: nat, p: Proc, w: World)
    requires p.Finalize?
    ensures Tidy(p, AdmitTurn(c, s, pid, p, w))
  {
  }

  lemma SpawnTidy(c: Config, s: State, pid: nat, p: Proc, w: World)
    requires p.Finalize? && p.fpc.FBound?
    ensures Tidy(p, RedeemTurn(c, s, pid, p, w))
  {
  }

  lemma RedeemTidy(c: Config, s: State, pid: nat, p: Proc, w: World)
    requires p.Finalize? && !p.fpc.FBound?
    ensures Tidy(p, RedeemTurn(c, s, pid, p, w))
  {
  }

  lemma GrowsTransitive(s: State, t: State, u: State)
    requires Grows(s, t) && Grows(t, u)
    ensures Grows(s, u)
  {
    forall pid | pid in s.procs ensures pid in u.procs && SameTask(s.procs[pid], u.procs[pid]) {
      assert SameTask(s.procs[pid], t.procs[pid]) && SameTask(t.procs[pid], u.procs[pid]);
    }
  }

  lemma FinalizeTidy(c: Config, s: State, pid: nat, p: Proc, w: World)
    requires p.Finalize?
    ensures Tidy(p, FinalizeTurn(c, s, pid, p, w))
  {
    AdmitTidy(c, s, pid, p, w);
    if p.fpc.FBound? {
      SpawnTidy(c, s, pid, p, w);
    } else {
      RedeemTidy(c, s, pid, p, w);
    }
  }

  lemma EnrollTidy(c: Config, s: State, p: Proc, w: World)
    requires p.Enroll? && CarriesCert(p)
    ensures Tidy(p, EnrollTurn(c, s, p, w))
  {
  }

  lemma CreateTidy(c: Config, s: State, p: Proc, w: World)
    requires p.Create?
    ensures Tidy(p, CreateTurn(c, s, p, w))
  {
  }

  lemma FetchTidy(c: Config, s: State, p: Proc, w: World)
    requires p.Fetch?
    ensures Tidy(p, FetchTurn(c, s, p, w))
  {
  }

  lemma LateTidy(s: State, p: Proc, w: World)
    requires CarriesCert(p)
    ensures p.Poll? ==> Tidy(p, PollTurn(s, p, w))
    ensures p.Trigger? ==> Tidy(p, TriggerTurn(s, p, w))
  {
  }

  lemma JobTidy(s: State, p: Proc, w: World)
    ensures p.Promote? ==> Tidy(p, PromoteTurn(s, p, w))
    ensures p.Validate? ==> Tidy(p, ValidateTurn(s, p, w))
    ensures p.SweepOrders? ==> Tidy(p, SweepOrdersTurn(p, w))
    ensures p.SweepAuthzs? ==> Tidy(p, SweepAuthzsTurn(p, w))
  {
  }

  lemma TurnTidy(c: Config, s: State, pid: nat, p: Proc, w: World)
    requires CarriesCert(p)
    ensures Tidy(p, TurnOf(c, s, pid, p, w))
  {
    match p
    case Finalize(_, _, _, _) => FinalizeTidy(c, s, pid, p, w);
    case Enroll(_, _, _, _, _) => EnrollTidy(c, s, p, w);
    case Create(_, _, _, _, _, _) => CreateTidy(c, s, p, w);
    case Fetch(_, _) => FetchTidy(c, s, p, w);
    case Poll(_, _, _) => LateTidy(s, p, w);
    case Trigger(_, _, _, _) => LateTidy(s, p, w);
    case _ => JobTidy(s, p, w);
  }

  lemma OrdersGrowWith(db: Tables, w: Write)
    ensures OrdersGrow(db, Apply(db, w))
  {
  }

  lemma AuthzsGrowWith(db: Tables, w: Write)
    ensures AuthzsGrow(db, Apply(db, w))
  {
  }

  lemma CertsGrowWith(db: Tables, w: Write)
    requires w.CertTo? ==> w.cert != ""
    ensures CertsGrow(db, Apply(db, w))
  {
  }

  lemma WriteGrows(db: Tables, w: Write)
    requires w.CertTo? ==> w.cert != ""
    ensures TablesGrow(db, Apply(db, w))
  {
    OrdersGrowWith(db, w);
    AuthzsGrowWith(db, w);
    CertsGrowWith(db, w);
  }

  lemma TasksStay(s: State)
    ensures forall q | q in s.procs :: SameTask(s.procs[q], s.procs[q])
  {
  }

  /** Time and kills leave rows, processes and history alone. */
  lemma NothingMoves(s: State, t: State)
    requires AllCarry(s)
    requires t.db == s.db && t.procs == s.procs && t.disclosed == s.disclosed && t.log == s.log
    ensures Grows(s, t) && AllCarry(t)
  {
    TasksStay(s);
  }

  lemma TakeCarries(s: State, pid: nat, t: Turn)
    requires AllCarry(s) && pid in s.procs && Tidy(s.procs[pid], t)
    ensures AllCarry(Take(s, pid, t))
  {
  }

  lemma TakeGrows(s: State, pid: nat, t: Turn)
    requires pid in s.procs && Tidy(s.procs[pid], t)
    ensures Grows(s, Take(s, pid, t))
  {
    TasksStay(s);
    if t.Turn? {
      WriteGrows(s.db, t.write);
    }
  }

  lemma AdvanceGrows(c: Config, s: State, pid: nat, w: World)
    requires AllCarry(s) && pid in s.procs
    ensures var t := Take(s, pid, TurnOf(c, s, pid, s.procs[pid], w)); Grows(s, t) && AllCarry(t)
  {
    TurnTidy(c, s, pid, s.procs[pid], w);
    TakeGrows(s, pid, TurnOf(c, s, pid, s.procs[pid], w));
    TakeCarries(s, pid, TurnOf(c, s, pid, s.procs[pid], w));
  }

  lemma StartGrows(c: Config, s: State, pid: nat, p: Proc)
    requires AllCarry(s) && pid !in s.procs && MayStart(c, s, p)
    ensures var t := s.(procs := s.procs[pid := p]); Grows(s, t) && AllCarry(t)
  {
    TasksStay(s);
  }

  lemma PromotionGrows(s: State, o: string)
    requires AllCarry(s)
    ensures var t := Promoted(s, o); Grows(s, t) && AllCarry(t)
  {
    TasksStay(s);
    WriteGrows(s.db, OrderTo(o, Ready));
  }

  /** Every action only grows the state. */
  lemma StepGrows(c: Config, s: State, a: Action)
    requires AllCarry(s)
    ensures Grows(s, Step(c, s, a)) && AllCarry(Step(c, s, a))
  {
    NothingMoves(s, s);
    match a
    case Advance(pid, w) =>
      if pid in s.procs && pid !in s.dead {
        AdvanceGrows(c, s, pid, w);
      }
    case Start(pid, p) =>
      if pid !in s.procs && MayStart(c, s, p) {
        StartGrows(c, s, pid, p);
      }
    case PromoteAtOnce(o) => PromotionGrows(s, o);
    case Tick(t) => NothingMoves(s, s.(now := t));
    case Kill(pid) => NothingMoves(s, s.(dead := s.dead + {pid}));
  }

  /** An action that is neither a turn nor a start leaves the processes alone, and writes at
      most `ready` to an order. */
  lemma OtherActions(c: Config, s: State, a: Action)
    requires !a.Advance? && !a.Start?
    ensures var t := Step(c, s, a);
            && t.db.authzs == s.db.authzs && t.db.certs == s.db.certs
            && t.disclosed == s.disclosed && t.procs == s.procs
            && |t.log| <= |s.log| + 1 && (|t.log| > |s.log| ==> t.log[|s.log|].ReadyWritten?)
            && forall o | HasStatus(t.db, o, Valid) :: HasStatus(s.db, o, Valid)
  {
  }
}
