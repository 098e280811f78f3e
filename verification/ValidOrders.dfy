/** A valid order has its certificate. */
module ValidOrders {
  import opened AcmeTables
  import opened OrderMachine
  import opened Growth

  ghost predicate StoreFailed(s: State, o: string) {
    exists i :: 0 <= i < |s.log| && s.log[i] == StoreLost(o)
  }

  ghost predicate Backed(s: State, o: string) {
    HasCertificate(s.db, o) || StoreFailed(s, o)
  }

  predicate RowOf(db: Tables, k: string, o: string) {
    k in db.certs && db.certs[k].order == o
  }

  predicate HitsOf(db: Tables, todo: seq<(string, string)>) {
    forall i | 0 <= i < |todo| :: RowOf(db, todo[i].0, todo[i].1)
  }

  /** The certificate row each process works on belongs to its order. */
  ghost predicate Rows(s: State, p: Proc) {
    match p
    case Finalize(_, o, _, pc) =>
      && (pc.FCsrStored? ==> RowOf(s.db, pc.cert, o))
      && (pc.FBound? ==> RowOf(s.db, pc.cert, o))
      && (pc.FWaiting? ==> pc.worker in s.procs && s.procs[pc.worker].Enroll? && s.procs[pc.worker].order == o)
    case Enroll(_, o, _, k, _) => RowOf(s.db, k, o)
    case Poll(k, o, _) => RowOf(s.db, k, o)
    case Trigger(todo, _, _, stored) => (stored ==> todo != []) && HitsOf(s.db, todo)
    case _ => true
  }

  /** The order that a process may write `valid`, or report as issued, from here on. */
  function Needs(p: Proc): Option<string> {
    match p
    case Finalize(_, o, _, pc) => if pc.FSucceeded? then Some(o) else None
    case Enroll(_, o, _, _, pc) =>
      if pc.ECertStored? || pc.ESuccessHook?
         || (pc.EPostHook? && pc.error == "" && pc.detail == "")
         || (pc.EReturned? && pc.error == "" && pc.detail == "") then Some(o) else None
    case Poll(_, o, pc) => if pc.QValid? then Some(o) else None
    case Trigger(todo, _, _, stored) => if stored && todo != [] then Some(todo[0].1) else None
    case _ => None
  }

  ghost predicate ProcOk(s: State, p: Proc) {
    Rows(s, p) && (Needs(p).Some? ==> Backed(s, Needs(p).value))
  }

  ghost predicate ValidBacked(s: State) {
    forall o | o in s.db.orders && s.db.orders[o].status == Valid :: Backed(s, o)
  }

  ghost predicate Inv(s: State) {
    && AllCarry(s)
    && (forall pid | pid in s.procs :: ProcOk(s, s.procs[pid]))
    && ValidBacked(s)
  }

  lemma BackedGrows(s: State, t: State, o: string)
    requires Backed(s, o) && Grows(s, t)
    ensures Backed(t, o)
  {
    if HasCertificate(s.db, o) {
      var k :| k in s.db.certs && s.db.certs[k].order == o && s.db.certs[k].cert != "";
      assert k in t.db.certs && t.db.certs[k].order == o && t.db.certs[k].cert != "";
    } else {
      var i :| 0 <= i < |s.log| && s.log[i] == StoreLost(o);
      assert t.log[i] == StoreLost(o);
    }
  }

  lemma ProcGrows(s: State, t: State, p: Proc)
    requires ProcOk(s, p) && Grows(s, t)
    ensures ProcOk(t, p)
  {
    if Needs(p).Some? {
      BackedGrows(s, t, Needs(p).value);
    }
    if p.Finalize? && p.fpc.FWaiting? {
      assert SameTask(s.procs[p.fpc.worker], t.procs[p.fpc.worker]);
    }
  }

  /** A turn writes `valid` only on an order that is backed. */
  ghost predicate WritesBacked(s: State, t: Turn) {
    t.Turn? ==>
      && (t.write.OrderTo? && t.write.status == Valid ==> Backed(s, t.write.order))
      && (t.write.NewOrder? ==> t.write.orow.status != Valid)
  }

  lemma RedeemBacked(c: Config, s: State, pid: nat, p: Proc, w: World)
    requires p.Finalize? && ProcOk(s, p)
    ensures WritesBacked(s, RedeemTurn(c, s, pid, p, w)) && WritesBacked(s, AdmitTurn(c, s, pid, p, w))
  {
  }

  lemma EnrollBacked(c: Config, s: State, p: Proc, w: World)
    requires p.Enroll? && ProcOk(s, p)
    ensures WritesBacked(s, EnrollTurn(c, s, p, w))
  {
  }

  lemma FetchBacked(c: Config, s: State, p: Proc, w: World)
    requires p.Fetch?
    ensures WritesBacked(s, FetchTurn(c, s, p, w))
  {
  }

  lemma LateBacked(s: State, p: Proc, w: World)
    requires ProcOk(s, p)
    ensures p.Poll? ==> WritesBacked(s, PollTurn(s, p, w))
    ensures p.Trigger? ==> WritesBacked(s, TriggerTurn(s, p, w))
  {
  }

  lemma JobBacked(c: Config, s: State, p: Proc, w: World)
    ensures p.Create? ==> WritesBacked(s, CreateTurn(c, s, p, w))
    ensures p.Promote? ==> WritesBacked(s, PromoteTurn(s, p, w))
    ensures p.Validate? ==> WritesBacked(s, ValidateTurn(s, p, w))
    ensures p.SweepOrders? ==> WritesBacked(s, SweepOrdersTurn(p, w))
    ensures p.SweepAuthzs? ==> WritesBacked(s, SweepAuthzsTurn(p, w))
  {
  }

  lemma TurnBacked(c: Config, s: State, pid: nat, p: Proc, w: World)
    requires ProcOk(s, p)
    ensures WritesBacked(s, TurnOf(c, s, pid, p, w))
  {
    match p
    case Finalize(_, _, _, _) => RedeemBacked(c, s, pid, p, w);
    case Enroll(_, _, _, _, _) => EnrollBacked(c, s, p, w);
    case Fetch(_, _) => FetchBacked(c, s, p, w);
    case Poll(_, _, _) => LateBacked(s, p, w);
    case Trigger(_, _, _, _) => LateBacked(s, p, w);
    case _ => JobBacked(c, s, p, w);
  }

  /** This turn stores a certificate for the order, or fails to. */
  ghost predicate Stores(s: State, o: string, write: Write, note: Option<Event>) {
    || (write.CertTo? && write.cert != "" && RowOf(s.db, write.certName, o))
    || note == Some(StoreLost(o))
  }

  /** What a process hands on is known to it already or made true by this very turn. */
  ghost predicate Knows(s: State, turn: Turn) {
    match turn
    case Stuck => true
    case Turn(q, write, note) =>
      && (Rows(s, q)
          || (q.Finalize? && write.NewCert? && write.certName !in s.db.certs
              && q.fpc == FCsrStored(write.certName) && write.krow.order == q.order))
      && (Needs(q).Some? ==> Backed(s, Needs(q).value) || Stores(s, Needs(q).value, write, note))
    case Spawn(q, child, thread) =>
      && thread.Enroll? && thread.epc.EBegin? && Rows(s, thread)
      && q.Finalize? && q.order == thread.order && (q.fpc.FAnswered? || q.fpc == FWaiting(child))
    case Disclose(q, _, _) => q.Create?
  }

  lemma AdmitKnows(c: Config, s: State, pid: nat, p: Proc, w: World)
    requires p.Finalize?
    ensures Knows(s, AdmitTurn(c, s, pid, p, w))
  {
  }

  lemma WaitKnows(c: Config, s: State, pid: nat, p: Proc, w: World)
    requires p.Finalize? && p.fpc.FWaiting? && ProcOk(s, p) && ProcOk(s, s.procs[p.fpc.worker])
    ensures Knows(s, RedeemTurn(c, s, pid, p, w))
  {
  }

  lemma RedeemKnows(c: Config, s: State, pid: nat, p: Proc, w: World)
    requires p.Finalize? && !p.fpc.FWaiting? && ProcOk(s, p)
    ensures Knows(s, RedeemTurn(c, s, pid, p, w))
  {
  }

  lemma StoreKnows(c: Config, s: State, p: Proc, w: World)
    requires p.Enroll? && p.epc.EGotCert? && ProcOk(s, p) && CarriesCert(p)
    ensures Knows(s, EnrollTurn(c, s, p, w))
  {
  }

  lemma HookKnows(c: Config, s: State, p: Proc, w: World)
    requires p.Enroll? && (p.epc.ESuccessHook? || p.epc.EPostHook?) && ProcOk(s, p)
    ensures Knows(s, EnrollTurn(c, s, p, w))
  {
  }

  lemma EnrollKnows(c: Config, s: State, p: Proc, w: World)
    requires p.Enroll? && !p.epc.EGotCert? && !p.epc.ESuccessHook? && !p.epc.EPostHook? && ProcOk(s, p)
    ensures Knows(s, EnrollTurn(c, s, p, w))
  {
  }

  lemma CreateKnows(c: Config, s: State, p: Proc, w: World)
    requires p.Create?
    ensures Knows(s, CreateTurn(c, s, p, w))
  {
  }

  lemma FetchKnows(c: Config, s: State, p: Proc, w: World)
    requires p.Fetch?
    ensures Knows(s, FetchTurn(c, s, p, w))
  {
  }

  lemma PollKnows(s: State, p: Proc, w: World)
    requires p.Poll? && ProcOk(s, p) && CarriesCert(p)
    ensures Knows(s, PollTurn(s, p, w))
  {
  }

  lemma NextHit(db: Tables, todo: seq<(string, string)>)
    requires todo != [] && HitsOf(db, todo)
    ensures RowOf(db, todo[0].0, todo[0].1) && HitsOf(db, todo[1..])
  {
  }

  lemma TriggerKnows(s: State, p: Proc, w: World)
    requires p.Trigger? && ProcOk(s, p) && CarriesCert(p)
    ensures Knows(s, TriggerTurn(s, p, w))
  {
    if p.todo != [] {
      NextHit(s.db, p.todo);
    }
  }

  lemma JobKnows(s: State, p: Proc, w: World)
    ensures p.Promote? ==> Knows(s, PromoteTurn(s, p, w))
    ensures p.Validate? ==> Knows(s, ValidateTurn(s, p, w))
    ensures p.SweepOrders? ==> Knows(s, SweepOrdersTurn(p, w))
    ensures p.SweepAuthzs? ==> Knows(s, SweepAuthzsTurn(p, w))
  {
  }

  lemma TurnKnows(c: Config, s: State, pid: nat, w: World)
    requires Inv(s) && pid in s.procs
    ensures Knows(s, TurnOf(c, s, pid, s.procs[pid], w))
  {
    var p := s.procs[pid];
    assert ProcOk(s, p) && CarriesCert(p);
    match p
    case Finalize(_, _, _, _) =>
      AdmitKnows(c, s, pid, p, w);
      if p.fpc.FWaiting? {
        WaitKnows(c, s, pid, p, w);
      } else {
        RedeemKnows(c, s, pid, p, w);
      }
    case Enroll(_, _, _, _, _) =>
      if p.epc.EGotCert? {
        StoreKnows(c, s, p, w);
      } else if p.epc.ESuccessHook? || p.epc.EPostHook? {
        HookKnows(c, s, p, w);
      } else {
        EnrollKnows(c, s, p, w);
      }
    case Create(_, _, _, _, _, _) => CreateKnows(c, s, p, w);
    case Fetch(_, _) => FetchKnows(c, s, p, w);
    case Poll(_, _, _) => PollKnows(s, p, w);
    case Trigger(_, _, _, _) => TriggerKnows(s, p, w);
    case _ => JobKnows(s, p, w);
  }

  lemma StoreBacks(s: State, pid: nat, turn: Turn, o: string)
    requires turn.Turn? && Stores(s, o, turn.write, turn.note)
    ensures Backed(Take(s, pid, turn), o)
  {
    var t := Take(s, pid, turn);
    if turn.note == Some(StoreLost(o)) {
      assert t.log[|s.log|] == StoreLost(o);
    } else {
      assert t.db.certs[turn.write.certName].order == o;
    }
  }

  lemma BackedNow(s: State, pid: nat, turn: Turn, o: string)
    requires Grows(s, Take(s, pid, turn)) && turn.Turn?
    requires Backed(s, o) || Stores(s, o, turn.write, turn.note)
    ensures Backed(Take(s, pid, turn), o)
  {
    if Backed(s, o) {
      BackedGrows(s, Take(s, pid, turn), o);
    } else {
      StoreBacks(s, pid, turn, o);
    }
  }

  /** The row a finalize request has just inserted is its own. */
  lemma NewRowFits(s: State, pid: nat, turn: Turn)
    requires turn.Turn? && Knows(s, turn) && Grows(s, Take(s, pid, turn))
    ensures Rows(Take(s, pid, turn), turn.proc)
  {
    if Rows(s, turn.proc) {
      RowsGrow(s, Take(s, pid, turn), turn.proc);
    }
  }

  lemma SpawnFits(s: State, pid: nat, turn: Turn)
    requires turn.Spawn? && pid in s.procs && turn.child !in s.procs && Knows(s, turn) && Grows(s, Take(s, pid, turn))
    ensures var t := Take(s, pid, turn); ProcOk(t, turn.proc) && ProcOk(t, turn.thread)
  {
    RowsGrow(s, Take(s, pid, turn), turn.thread);
  }

  lemma TakeMoves(s: State, pid: nat, turn: Turn)
    requires pid in s.procs && ProcOk(s, s.procs[pid]) && Knows(s, turn) && Grows(s, Take(s, pid, turn))
    ensures var t := Take(s, pid, turn);
            && ProcOk(t, t.procs[pid])
            && (turn.Spawn? ==> turn.child in t.procs && (turn.child in s.procs || ProcOk(t, turn.thread)))
  {
    var t := Take(s, pid, turn);
    match turn
    case Stuck =>
    case Turn(q, write, note) =>
      if Needs(q).Some? {
        BackedNow(s, pid, turn, Needs(q).value);
      }
      NewRowFits(s, pid, turn);
    case Spawn(q, child, thread) =>
      if child in s.procs {
        ProcGrows(s, t, s.procs[pid]);
      } else {
        SpawnFits(s, pid, turn);
      }
    case Disclose(q, _, _) =>
      ProcGrows(s, t, s.procs[pid]);
  }

  lemma RowsGrow(s: State, t: State, p: Proc)
    requires Grows(s, t)
    ensures Rows(s, p) ==> Rows(t, p)
  {
    if Rows(s, p) && p.Finalize? && p.fpc.FWaiting? {
      assert SameTask(s.procs[p.fpc.worker], t.procs[p.fpc.worker]);
    }
  }

  lemma ValidByWrite(db: Tables, write: Write, o: string)
    requires HasStatus(Apply(db, write), o, Valid)
    ensures || HasStatus(db, o, Valid)
            || (write.OrderTo? && write.order == o && write.status == Valid)
            || (write.NewOrder? && write.orow.status == Valid)
  {
  }

  lemma ValidIsBackedAfter(s: State, pid: nat, turn: Turn, o: string)
    requires ValidBacked(s) && WritesBacked(s, turn) && Grows(s, Take(s, pid, turn))
    requires HasStatus(Take(s, pid, turn).db, o, Valid)
    ensures Backed(Take(s, pid, turn), o)
  {
    if turn.Turn? {
      ValidByWrite(s.db, turn.write, o);
    }
    BackedGrows(s, Take(s, pid, turn), o);
  }

  lemma TakeKeeps(s: State, pid: nat, turn: Turn)
    requires Inv(s) && pid in s.procs && Tidy(s.procs[pid], turn) && WritesBacked(s, turn) && Knows(s, turn)
    ensures Inv(Take(s, pid, turn))
  {
    var t := Take(s, pid, turn);
    TakeGrows(s, pid, turn);
    TakeCarries(s, pid, turn);
    TakeMoves(s, pid, turn);
    ProcsGrow(s, t);
    forall o | o in t.db.orders && t.db.orders[o].status == Valid ensures Backed(t, o) {
      ValidIsBackedAfter(s, pid, turn, o);
    }
  }

  lemma ProcsGrow(s: State, t: State)
    requires Inv(s) && Grows(s, t)
    ensures forall q | q in s.procs :: ProcOk(t, s.procs[q])
  {
    forall q | q in s.procs ensures ProcOk(t, s.procs[q]) {
      ProcGrows(s, t, s.procs[q]);
    }
  }

  lemma AdvanceKeeps(c: Config, s: State, pid: nat, w: World)
    requires Inv(s) && pid in s.procs
    ensures Inv(Take(s, pid, TurnOf(c, s, pid, s.procs[pid], w)))
  {
    var p := s.procs[pid];
    assert ProcOk(s, p) && CarriesCert(p);
    TurnTidy(c, s, pid, p, w);
    TurnBacked(c, s, pid, p, w);
    TurnKnows(c, s, pid, w);
    TakeKeeps(s, pid, TurnOf(c, s, pid, p, w));
  }

  lemma OthersKeep(s: State, t: State)
    requires Inv(s) && Grows(s, t) && AllCarry(t)
    requires forall o | HasStatus(t.db, o, Valid) :: HasStatus(s.db, o, Valid)
    requires forall pid | pid in t.procs && pid !in s.procs :: ProcOk(t, t.procs[pid])
    requires forall pid | pid in s.procs :: t.procs[pid] == s.procs[pid]
    ensures Inv(t)
  {
    ProcsGrow(s, t);
    forall o | o in t.db.orders && t.db.orders[o].status == Valid ensures Backed(t, o) {
      assert HasStatus(t.db, o, Valid);
      BackedGrows(s, t, o);
    }
  }

  lemma StartKeeps(c: Config, s: State, pid: nat, p: Proc)
    requires Inv(s) && pid !in s.procs && MayStart(c, s, p)
    ensures Inv(s.(procs := s.procs[pid := p]))
  {
    StartGrows(c, s, pid, p);
    OthersKeep(s, s.(procs := s.procs[pid := p]));
  }

  lemma StepKeeps(c: Config, s: State, a: Action)
    requires Inv(s)
    ensures Inv(Step(c, s, a))
  {
    match a
    case Advance(pid, w) =>
      if pid in s.procs && pid !in s.dead {
        AdvanceKeeps(c, s, pid, w);
      }
    case Start(pid, p) =>
      if pid !in s.procs && MayStart(c, s, p) {
        StartKeeps(c, s, pid, p);
      }
    case _ =>
      StepGrows(c, s, a);
      OtherActions(c, s, a);
      OthersKeep(s, Step(c, s, a));
  }

  /** In every run - enrollments that finish late, polling and trigger callbacks
      included - an order that is valid has a row with a stored certificate, unless a
      certificate of that order failed to be stored: the code then writes `valid` all
      the same. */
  lemma {:induction false} ValidHasCertificate(c: Config, acts: seq<Action>)
    ensures forall o | HasStatus(Run(c, acts).db, o, Valid) ::
              HasCertificate(Run(c, acts).db, o)
              || exists i :: 0 <= i < |Run(c, acts).log| && Run(c, acts).log[i] == StoreLost(o)
    ensures Inv(Run(c, acts))
  {
    if acts != [] {
      ValidHasCertificate(c, acts[..|acts| - 1]);
      StepKeeps(c, Run(c, acts[..|acts| - 1]), acts[|acts| - 1]);
    }
    assert forall o | HasStatus(Run(c, acts).db, o, Valid) :: Backed(Run(c, acts), o);
  }
}
