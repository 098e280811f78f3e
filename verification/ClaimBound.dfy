/** How often an order can be claimed and its CSR reach the CA. */
module ClaimBound {
  import opened AcmeTables
  import opened OrderMachine

  predicate IsReady(e: Event, o: string) { e == ReadyWritten(o) }
  predicate IsClaim(e: Event, o: string) { e.ClaimWon? && e.order == o }
  predicate IsIssue(e: Event, o: string) { e.Issued? && e.order == o }

  function ReadyWrites(log: seq<Event>, o: string): nat {
    if log == [] then 0
    else ReadyWrites(log[..|log| - 1], o) + (if IsReady(log[|log| - 1], o) then 1 else 0)
  }

  function Claims(log: seq<Event>, o: string): nat {
    if log == [] then 0
    else Claims(log[..|log| - 1], o) + (if IsClaim(log[|log| - 1], o) then 1 else 0)
  }

  function Issues(log: seq<Event>, o: string): nat {
    if log == [] then 0
    else Issues(log[..|log| - 1], o) + (if IsIssue(log[|log| - 1], o) then 1 else 0)
  }

  lemma CountsOneMore(log: seq<Event>, e: Event, o: string)
    ensures ReadyWrites(log + [e], o) == ReadyWrites(log, o) + if IsReady(e, o) then 1 else 0
    ensures Claims(log + [e], o) == Claims(log, o) + if IsClaim(e, o) then 1 else 0
    ensures Issues(log + [e], o) == Issues(log, o) + if IsIssue(e, o) then 1 else 0
  {
    assert (log + [e])[..|log|] == log;
  }

  // ---------- unspent claims ----------

  /** A process that has won a claim and may still lead to one issuance. */
  predicate HoldsClaim(p: Proc, o: string) {
    || (p.Finalize? && p.order == o
        && (p.fpc.FClaimed? || p.fpc.FGated? || p.fpc.FCsrStored? || p.fpc.FBound?))
    || (p.Enroll? && p.order == o && (p.epc.EBegin? || p.epc.EHooked?))
  }

  function Holders(procs: map<nat, Proc>, o: string): set<nat> {
    set pid | pid in procs && HoldsClaim(procs[pid], o)
  }

  ghost predicate Covered(log: seq<Event>, procs: map<nat, Proc>, o: string) {
    Issues(log, o) + |Holders(procs, o)| <= Claims(log, o)
  }

  ghost predicate Earned(log: seq<Event>, db: Tables, o: string) {
    Claims(log, o) + (if HasStatus(db, o, Ready) then 1 else 0) <= ReadyWrites(log, o)
  }

  ghost predicate CountInv(s: State, o: string) {
    Covered(s.log, s.procs, o) && Earned(s.log, s.db, o)
  }

  /** Replacing one process changes the holders by at most that process. */
  lemma HoldersMove(procs: map<nat, Proc>, pid: nat, p: Proc, o: string)
    ensures var h := Holders(procs, o);
            var k := Holders(procs[pid := p], o);
            |k| == |h| - (if pid in h then 1 else 0) + (if HoldsClaim(p, o) then 1 else 0)
  {
    var h := Holders(procs, o);
    var k := Holders(procs[pid := p], o);
    assert k - {pid} == h - {pid};
    if pid in h {
      assert |h - {pid}| == |h| - 1;
    } else {
      assert h - {pid} == h;
    }
    if pid in k {
      assert |k - {pid}| == |k| - 1;
    } else {
      assert k - {pid} == k;
    }
  }

  /** What one turn does to the claim account of an order: an issuance and a dropped
      claim use one up, winning a claim needs `ready` and leaves `processing`, and
      `ready` is never written unseen. */
  predicate Accounts(s: State, p: Proc, t: Turn, o: string) {
    var held := if HoldsClaim(p, o) then 1 else 0;
    match t
    case Stuck => true
    case Turn(q, write, note) =>
      var holds := if HoldsClaim(q, o) then 1 else 0;
      var issue := if note.Some? && IsIssue(note.value, o) then 1 else 0;
      var claim := if note.Some? && IsClaim(note.value, o) then 1 else 0;
      && issue + holds <= held + claim
      && (claim == 1 ==> HasStatus(s.db, o, Ready) && write == OrderTo(o, Processing))
      && (write == OrderTo(o, Ready) ==> note == Some(ReadyWritten(o)))
      && (write.NewOrder? && write.order == o ==> write.orow.status != Ready && claim == 0)
    case Spawn(q, _, thread) =>
      (if HoldsClaim(q, o) then 1 else 0) + (if HoldsClaim(thread, o) then 1 else 0) <= held
    case Disclose(q, _, _) => !HoldsClaim(q, o)
  }

  lemma AdmitAccounts(c: Config, s: State, pid: nat, p: Proc, w: World, o: string)
    requires p.Finalize?
    ensures Accounts(s, p, AdmitTurn(c, s, pid, p, w), o)
  {
  }

  lemma SpawnAccounts(c: Config, s: State, pid: nat, p: Proc, w: World, o: string)
    requires p.Finalize? && p.fpc.FBound?
    ensures Accounts(s, p, RedeemTurn(c, s, pid, p, w), o)
  {
  }

  lemma RedeemAccounts(c: Config, s: State, pid: nat, p: Proc, w: World, o: string)
    requires p.Finalize? && !p.fpc.FBound?
    ensures Accounts(s, p, RedeemTurn(c, s, pid, p, w), o)
  {
  }

  lemma FinalizeAccounts(c: Config, s: State, pid: nat, p: Proc, w: World, o: string)
    requires p.Finalize?
    ensures Accounts(s, p, FinalizeTurn(c, s, pid, p, w), o)
  {
    AdmitAccounts(c, s, pid, p, w, o);
    if p.fpc.FBound? {
      SpawnAccounts(c, s, pid, p, w, o);
    } else {
      RedeemAccounts(c, s, pid, p, w, o);
    }
  }

  lemma EnrollAccounts(c: Config, s: State, p: Proc, w: World, o: string)
    requires p.Enroll?
    ensures Accounts(s, p, EnrollTurn(c, s, p, w), o)
  {
  }

  lemma CreateAccounts(c: Config, s: State, p: Proc, w: World, o: string)
    requires p.Create?
    ensures Accounts(s, p, CreateTurn(c, s, p, w), o)
  {
  }

  lemma FetchAccounts(c: Config, s: State, p: Proc, w: World, o: string)
    requires p.Fetch?
    ensures Accounts(s, p, FetchTurn(c, s, p, w), o)
  {
  }

  lemma LateAccounts(s: State, p: Proc, w: World, o: string)
    ensures p.Poll? ==> Accounts(s, p, PollTurn(s, p, w), o)
    ensures p.Trigger? ==> Accounts(s, p, TriggerTurn(s, p, w), o)
  {
  }

  lemma JobAccounts(s: State, p: Proc, w: World, o: string)
    ensures p.Promote? ==> Accounts(s, p, PromoteTurn(s, p, w), o)
    ensures p.Validate? ==> Accounts(s, p, ValidateTurn(s, p, w), o)
    ensures p.SweepOrders? ==> Accounts(s, p, SweepOrdersTurn(p, w), o)
    ensures p.SweepAuthzs? ==> Accounts(s, p, SweepAuthzsTurn(p, w), o)
  {
  }

  lemma TurnAccounts(c: Config, s: State, pid: nat, p: Proc, w: World, o: string)
    ensures Accounts(s, p, TurnOf(c, s, pid, p, w), o)
  {
    match p
    case Finalize(_, _, _, _) => FinalizeAccounts(c, s, pid, p, w, o);
    case Enroll(_, _, _, _, _) => EnrollAccounts(c, s, p, w, o);
    case Create(_, _, _, _, _, _) => CreateAccounts(c, s, p, w, o);
    case Fetch(_, _) => FetchAccounts(c, s, p, w, o);
    case Poll(_, _, _) => LateAccounts(s, p, w, o);
    case Trigger(_, _, _, _) => LateAccounts(s, p, w, o);
    case _ => JobAccounts(s, p, w, o);
  }

  lemma TakeCovers(s: State, pid: nat, t: Turn, o: string)
    requires Covered(s.log, s.procs, o) && pid in s.procs && Accounts(s, s.procs[pid], t, o)
    ensures Covered(Take(s, pid, t).log, Take(s, pid, t).procs, o)
  {
    match t
    case Stuck =>
    case Turn(q, write, note) =>
      HoldersMove(s.procs, pid, q, o);
      if note.Some? {
        CountsOneMore(s.log, note.value, o);
      }
    case Spawn(q, child, thread) =>
      HoldersMove(s.procs, child, thread, o);
      HoldersMove(s.procs[child := thread], pid, q, o);
    case Disclose(q, _, _) =>
      HoldersMove(s.procs, pid, q, o);
  }

  lemma WriteStatus(db: Tables, write: Write, o: string)
    ensures var e := Apply(db, write);
            HasStatus(e, o, Ready) ==>
              || HasStatus(db, o, Ready)
              || (write.OrderTo? && write.order == o && write.status == Ready)
              || (write.NewOrder? && write.order == o && write.orow.status == Ready)
    ensures write == OrderTo(o, Processing) ==> !HasStatus(Apply(db, write), o, Ready)
  {
  }

  lemma TakeEarns(s: State, pid: nat, t: Turn, o: string)
    requires Earned(s.log, s.db, o) && pid in s.procs && Accounts(s, s.procs[pid], t, o)
    ensures Earned(Take(s, pid, t).log, Take(s, pid, t).db, o)
  {
    if t.Turn? {
      WriteStatus(s.db, t.write, o);
      if t.note.Some? {
        TurnEarns(s, t, o);
      }
    }
  }

  lemma TurnEarns(s: State, t: Turn, o: string)
    requires t.Turn? && t.note.Some? && Earned(s.log, s.db, o)
    requires var claim := if IsClaim(t.note.value, o) then 1 else 0;
             && (claim == 1 ==> HasStatus(s.db, o, Ready) && t.write == OrderTo(o, Processing))
             && (HasStatus(Apply(s.db, t.write), o, Ready) ==>
                   claim == 0 && (HasStatus(s.db, o, Ready) || IsReady(t.note.value, o)))
    ensures Earned(s.log + [t.note.value], Apply(s.db, t.write), o)
  {
    CountsOneMore(s.log, t.note.value, o);
  }

  lemma TakeCounts(s: State, pid: nat, t: Turn, o: string)
    requires CountInv(s, o) && pid in s.procs && Accounts(s, s.procs[pid], t, o)
    ensures CountInv(Take(s, pid, t), o)
  {
    TakeCovers(s, pid, t, o);
    TakeEarns(s, pid, t, o);
  }

  lemma StartCounts(c: Config, s: State, pid: nat, p: Proc, o: string)
    requires CountInv(s, o) && pid !in s.procs && MayStart(c, s, p)
    ensures CountInv(s.(procs := s.procs[pid := p]), o)
  {
    HoldersMove(s.procs, pid, p, o);
  }

  lemma PromotionCounts(s: State, o': string, o: string)
    requires CountInv(s, o) && HasStatus(s.db, o', Pending)
    ensures CountInv(Promoted(s, o'), o)
  {
    CountsOneMore(s.log, ReadyWritten(o'), o);
  }

  lemma StepCounts(c: Config, s: State, a: Action, o: string)
    requires CountInv(s, o)
    ensures CountInv(Step(c, s, a), o)
  {
    match a
    case Advance(pid, w) =>
      if pid in s.procs && pid !in s.dead {
        TurnAccounts(c, s, pid, s.procs[pid], w, o);
        TakeCounts(s, pid, TurnOf(c, s, pid, s.procs[pid], w), o);
      }
    case Start(pid, p) =>
      if pid !in s.procs && MayStart(c, s, p) {
        StartCounts(c, s, pid, p, o);
      }
    case PromoteAtOnce(o') =>
      if HasStatus(s.db, o', Pending) {
        PromotionCounts(s, o', o);
      }
    case _ =>
  }

  /** In every run, stale promotions, prevalidation and just-in-time validation
      included: no order has more issuances than won claims, and the won claims, plus
      one when the order is ready now, are at most the times `ready` was written. */
  lemma {:induction false} ClaimsAreBounded(c: Config, acts: seq<Action>, o: string)
    ensures var s := Run(c, acts);
            && Issues(s.log, o) <= Claims(s.log, o)
            && Claims(s.log, o) + (if HasStatus(s.db, o, Ready) then 1 else 0) <= ReadyWrites(s.log, o)
    ensures CountInv(Run(c, acts), o)
  {
    if acts == [] {
      assert Holders(Initial().procs, o) == {};
    } else {
      ClaimsAreBounded(c, acts[..|acts| - 1], o);
      StepCounts(c, Run(c, acts[..|acts| - 1]), acts[|acts| - 1], o);
    }
  }

  // ---------- forward only ----------

  /** pending < ready < processing < {valid, invalid}. */
  function Rank(st: Status): nat {
    match st
    case Pending => 0
    case Ready => 1
    case Processing => 2
    case _ => 3
  }

  /** Runs in which promotion is one step. */
  ghost predicate Orderly(acts: seq<Action>) {
    forall i | 0 <= i < |acts| :: acts[i].Start? ==> !acts[i].proc.Promote?
  }

  /** No process is on its way to write `ready`. */
  predicate WritesNoReady(p: Proc) {
    !p.Promote? && (p.Fetch? ==> !p.gpc.GMarkAuthz? && !p.gpc.GMarkOrder?)
  }

  ghost predicate Calm(s: State) {
    forall pid | pid in s.procs :: WritesNoReady(s.procs[pid])
  }

  /** A calm turn moves an order's status forward only. */
  predicate Forward(s: State, p: Proc, t: Turn, o: string) {
    match t
    case Stuck => true
    case Turn(q, write, note) =>
      && WritesNoReady(q)
      && (note.Some? ==> !note.value.ReadyWritten?)
      && (write.OrderTo? && write.order == o && o in s.db.orders ==>
            Rank(s.db.orders[o].status) <= Rank(write.status))
    case Spawn(q, _, thread) => WritesNoReady(q) && WritesNoReady(thread)
    case Disclose(q, _, _) => WritesNoReady(q)
  }

  lemma AdmitForward(c: Config, s: State, pid: nat, p: Proc, w: World, o: string)
    requires p.Finalize?
    ensures Forward(s, p, AdmitTurn(c, s, pid, p, w), o)
  {
  }

  lemma RedeemForward(c: Config, s: State, pid: nat, p: Proc, w: World, o: string)
    requires p.Finalize?
    ensures Forward(s, p, RedeemTurn(c, s, pid, p, w), o)
  {
  }

  lemma FinalizeForward(c: Config, s: State, pid: nat, p: Proc, w: World, o: string)
    requires p.Finalize?
    ensures Forward(s, p, FinalizeTurn(c, s, pid, p, w), o)
  {
    AdmitForward(c, s, pid, p, w, o);
    RedeemForward(c, s, pid, p, w, o);
  }

  lemma EnrollForward(c: Config, s: State, p: Proc, w: World, o: string)
    requires p.Enroll?
    ensures Forward(s, p, EnrollTurn(c, s, p, w), o)
  {
  }

  lemma CreateForward(c: Config, s: State, p: Proc, w: World, o: string)
    requires p.Create?
    ensures Forward(s, p, CreateTurn(c, s, p, w), o)
  {
  }

  lemma FetchForward(c: Config, s: State, p: Proc, w: World, o: string)
    requires !c.jit && c.prevalidation == {} && p.Fetch? && WritesNoReady(p)
    ensures Forward(s, p, FetchTurn(c, s, p, w), o)
  {
  }

  lemma JobForward(s: State, p: Proc, w: World, o: string)
    ensures p.Poll? ==> Forward(s, p, PollTurn(s, p, w), o)
    ensures p.Trigger? ==> Forward(s, p, TriggerTurn(s, p, w), o)
    ensures p.Validate? ==> Forward(s, p, ValidateTurn(s, p, w), o)
    ensures p.SweepOrders? ==> Forward(s, p, SweepOrdersTurn(p, w), o)
    ensures p.SweepAuthzs? ==> Forward(s, p, SweepAuthzsTurn(p, w), o)
  {
  }

  lemma TurnForward(c: Config, s: State, pid: nat, p: Proc, w: World, o: string)
    requires !c.jit && c.prevalidation == {} && WritesNoReady(p)
    ensures Forward(s, p, TurnOf(c, s, pid, p, w), o)
  {
    match p
    case Finalize(_, _, _, _) => FinalizeForward(c, s, pid, p, w, o);
    case Enroll(_, _, _, _, _) => EnrollForward(c, s, p, w, o);
    case Create(_, _, _, _, _, _) => CreateForward(c, s, p, w, o);
    case Fetch(_, _) => FetchForward(c, s, p, w, o);
    case _ => JobForward(s, p, w, o);
  }

  /** A pending order has never been written `ready`, any other at most once. */
  ghost predicate ReadyOnce(s: State, o: string) {
    && ReadyWrites(s.log, o) <= 1
    && (o !in s.db.orders || s.db.orders[o].status == Pending ==> ReadyWrites(s.log, o) == 0)
  }

  ghost predicate NotBackwards(s: State, t: State, o: string) {
    o in s.db.orders ==> o in t.db.orders && Rank(s.db.orders[o].status) <= Rank(t.db.orders[o].status)
  }

  ghost predicate GoesForward(s: State, t: State, o: string) {
    Calm(t) && NotBackwards(s, t, o) && ReadyOnce(t, o)
  }

  lemma WriteForward(db: Tables, write: Write, o: string)
    requires o in db.orders
    requires write.OrderTo? && write.order == o ==> Rank(db.orders[o].status) <= Rank(write.status)
    ensures o in Apply(db, write).orders
    ensures Rank(db.orders[o].status) <= Rank(Apply(db, write).orders[o].status)
  {
  }

  lemma TakeForward(s: State, pid: nat, t: Turn, o: string)
    requires Calm(s) && pid in s.procs && Forward(s, s.procs[pid], t, o) && ReadyOnce(s, o)
    ensures GoesForward(s, Take(s, pid, t), o)
  {
    if t.Turn? {
      if t.note.Some? {
        CountsOneMore(s.log, t.note.value, o);
      }
      if o in s.db.orders {
        WriteForward(s.db, t.write, o);
      }
    }
  }

  lemma StartForward(c: Config, s: State, pid: nat, p: Proc, o: string)
    requires Calm(s) && ReadyOnce(s, o) && pid !in s.procs && MayStart(c, s, p) && !p.Promote?
    ensures GoesForward(s, s.(procs := s.procs[pid := p]), o)
  {
  }

  lemma PromotionForward(s: State, o': string, o: string)
    requires Calm(s) && ReadyOnce(s, o) && HasStatus(s.db, o', Pending)
    ensures GoesForward(s, Promoted(s, o'), o)
  {
    CountsOneMore(s.log, ReadyWritten(o'), o);
  }

  lemma StepForward(c: Config, s: State, a: Action, o: string)
    requires !c.jit && c.prevalidation == {} && Calm(s) && ReadyOnce(s, o)
    requires a.Start? ==> !a.proc.Promote?
    ensures GoesForward(s, Step(c, s, a), o)
  {
    match a
    case Advance(pid, w) =>
      if pid in s.procs && pid !in s.dead {
        TurnForward(c, s, pid, s.procs[pid], w, o);
        TakeForward(s, pid, TurnOf(c, s, pid, s.procs[pid], w), o);
      }
    case Start(pid, p) =>
      if pid !in s.procs && MayStart(c, s, p) {
        StartForward(c, s, pid, p, o);
      }
    case PromoteAtOnce(o') =>
      if HasStatus(s.db, o', Pending) {
        PromotionForward(s, o', o);
      }
    case _ =>
  }

  lemma {:induction false} OrderlyRunIsCalm(c: Config, acts: seq<Action>, o: string)
    requires !c.jit && c.prevalidation == {} && Orderly(acts)
    ensures Calm(Run(c, acts)) && ReadyOnce(Run(c, acts), o)
  {
    if acts != [] {
      OrderlyRunIsCalm(c, acts[..|acts| - 1], o);
      StepForward(c, Run(c, acts[..|acts| - 1]), acts[|acts| - 1], o);
    }
  }

  /** Without just-in-time validation and prevalidation, and with promotion in one
      step, the status of an order never falls back along the way of a run. */
  lemma {:induction false} StatusNeverFalls(c: Config, acts: seq<Action>, n: nat, o: string)
    requires !c.jit && c.prevalidation == {} && Orderly(acts) && n <= |acts|
    requires o in Run(c, acts[..n]).db.orders
    ensures o in Run(c, acts).db.orders
    ensures Rank(Run(c, acts[..n]).db.orders[o].status) <= Rank(Run(c, acts).db.orders[o].status)
  {
    if n == |acts| {
      assert acts[..n] == acts;
    } else {
      var before := acts[..|acts| - 1];
      assert before[..n] == acts[..n];
      StatusNeverFalls(c, before, n, o);
      OrderlyRunIsCalm(c, before, o);
      StepForward(c, Run(c, before), acts[|acts| - 1], o);
    }
  }

  /** In such a run an order is claimed at most once, and at most one certificate is
      issued or reused for it. */
  lemma ClaimedOnce(c: Config, acts: seq<Action>, o: string)
    requires !c.jit && c.prevalidation == {} && Orderly(acts)
    ensures Claims(Run(c, acts).log, o) <= 1 && Issues(Run(c, acts).log, o) <= 1
  {
    ClaimsAreBounded(c, acts, o);
    OrderlyRunIsCalm(c, acts, o);
  }
}
