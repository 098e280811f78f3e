/** Where a valid authorization comes from. */
module Provenance {
  import opened AcmeTables
  import opened OrderMachine
  import opened Growth

  /** Event e shows control over authorization a: a validator accepted one of its own
      challenges, or a configured shortcut applied to it. */
  predicate Shows(c: Config, db: Tables, e: Event, a: string) {
    && e.Evidence? && e.authz == a
    && match e.proof
       case ValidatorPassed(ch) => ch in db.challenges && db.challenges[ch].authz == a
       case ValidationDisabled(ch) => ch in db.challenges && db.challenges[ch].authz == a
       case Prevalidated => a in db.authzs && HasList(c, db.authzs[a].identifier)
       case JustInTime => c.jit && a in db.authzs && db.authzs[a].identifier.kind == "dns"
       case Simulated => c.simulation
  }

  ghost predicate Proven(c: Config, s: State, a: string) {
    exists i :: 0 <= i < |s.log| && Shows(c, s.db, s.log[i], a)
  }

  /** The authorization that a process is about to write `valid`. */
  function Needs(db: Tables, p: Proc): Option<string> {
    match p
    case Validate(_, ch, pc) =>
      if ch in db.challenges && ((pc.VMark? && pc.to == Valid) || (pc.VAuthz? && pc.to == Valid)) then
        Some(db.challenges[ch].authz)
      else None
    case Fetch(a, pc) => if pc.GMarkAuthz? then Some(a) else None
    case _ => None
  }

  ghost predicate ProcOk(c: Config, s: State, p: Proc) {
    && (p.Create? && p.cpc.CSimulate? ==> c.simulation)
    && (p.Validate? ==> p.challenge in s.db.challenges)
    && (Needs(s.db, p).Some? ==> Proven(c, s, Needs(s.db, p).value))
  }

  ghost predicate Inv(c: Config, s: State) {
    && AllCarry(s)
    && (forall pid | pid in s.procs :: ProcOk(c, s, s.procs[pid]))
    && forall a | a in s.db.authzs && s.db.authzs[a].status == Valid :: Proven(c, s, a)
  }

  lemma ProvenGrows(c: Config, s: State, t: State, a: string)
    requires Proven(c, s, a) && Grows(s, t)
    ensures Proven(c, t, a)
  {
    var i :| 0 <= i < |s.log| && Shows(c, s.db, s.log[i], a);
    assert Shows(c, t.db, t.log[i], a);
  }

  lemma ProcGrows(c: Config, s: State, t: State, p: Proc)
    requires ProcOk(c, s, p) && Grows(s, t)
    ensures ProcOk(c, t, p)
  {
    if Needs(s.db, p).Some? {
      ProvenGrows(c, s, t, Needs(s.db, p).value);
    }
  }

  /** A turn writes an authorization `valid` only with evidence at hand or in hand. */
  ghost predicate Justified(c: Config, s: State, t: Turn) {
    t.Turn? ==>
      && (t.write.AuthzTo? && t.write.status == Valid ==>
            Proven(c, s, t.write.authz) || (t.note.Some? && Shows(c, s.db, t.note.value, t.write.authz)))
      && (t.write.NewAuthz? ==> t.write.arow.status != Valid)
  }

  lemma CreateJustified(c: Config, s: State, p: Proc, w: World)
    requires p.Create? && ProcOk(c, s, p)
    ensures Justified(c, s, CreateTurn(c, s, p, w))
  {
  }

  lemma FetchJustified(c: Config, s: State, p: Proc, w: World)
    requires p.Fetch? && ProcOk(c, s, p)
    ensures Justified(c, s, FetchTurn(c, s, p, w))
  {
  }

  lemma ValidateJustified(c: Config, s: State, p: Proc, w: World)
    requires p.Validate? && ProcOk(c, s, p)
    ensures Justified(c, s, ValidateTurn(s, p, w))
  {
  }

  lemma JobJustified(c: Config, s: State, p: Proc, w: World)
    ensures p.Promote? ==> Justified(c, s, PromoteTurn(s, p, w))
    ensures p.Poll? ==> Justified(c, s, PollTurn(s, p, w))
    ensures p.Trigger? ==> Justified(c, s, TriggerTurn(s, p, w))
    ensures p.SweepOrders? ==> Justified(c, s, SweepOrdersTurn(p, w))
    ensures p.SweepAuthzs? ==> Justified(c, s, SweepAuthzsTurn(p, w))
  {
  }

  lemma TurnJustified(c: Config, s: State, pid: nat, p: Proc, w: World)
    requires ProcOk(c, s, p)
    ensures Justified(c, s, TurnOf(c, s, pid, p, w))
  {
    match p
    case Finalize(_, _, _, _) => FinalizeJustified(c, s, pid, p, w);
    case Enroll(_, _, _, _, _) => EnrollJustified(c, s, p, w);
    case Create(_, _, _, _, _, _) => CreateJustified(c, s, p, w);
    case Fetch(_, _) => FetchJustified(c, s, p, w);
    case Validate(_, _, _) => ValidateJustified(c, s, p, w);
    case _ => JobJustified(c, s, p, w);
  }

  lemma FinalizeJustified(c: Config, s: State, pid: nat, p: Proc, w: World)
    requires p.Finalize?
    ensures Justified(c, s, AdmitTurn(c, s, pid, p, w)) && Justified(c, s, RedeemTurn(c, s, pid, p, w))
  {
  }

  lemma EnrollJustified(c: Config, s: State, p: Proc, w: World)
    requires p.Enroll?
    ensures Justified(c, s, EnrollTurn(c, s, p, w))
  {
  }

  /** A process sets out to write `valid` only when this turn brings the evidence. */
  ghost predicate Knows(c: Config, s: State, turn: Turn) {
    match turn
    case Stuck => true
    case Turn(q, _, note) =>
      && (q.Create? && q.cpc.CSimulate? ==> c.simulation)
      && (q.Validate? ==> q.challenge in s.db.challenges)
      && (Needs(s.db, q).Some? ==>
            Proven(c, s, Needs(s.db, q).value) || (note.Some? && Shows(c, s.db, note.value, Needs(s.db, q).value)))
    case Spawn(q, _, thread) => q.Finalize? && thread.Enroll?
    case Disclose(q, _, _) => q.Create? && !q.cpc.CSimulate?
  }

  lemma FinalizeKnows(c: Config, s: State, pid: nat, p: Proc, w: World)
    requires p.Finalize?
    ensures Knows(c, s, AdmitTurn(c, s, pid, p, w)) && Knows(c, s, RedeemTurn(c, s, pid, p, w))
  {
  }

  lemma EnrollKnows(c: Config, s: State, p: Proc, w: World)
    requires p.Enroll?
    ensures Knows(c, s, EnrollTurn(c, s, p, w))
  {
  }

  lemma CreateKnows(c: Config, s: State, p: Proc, w: World)
    requires p.Create? && ProcOk(c, s, p)
    ensures Knows(c, s, CreateTurn(c, s, p, w))
  {
  }

  lemma FetchKnows(c: Config, s: State, p: Proc, w: World)
    requires p.Fetch? && ProcOk(c, s, p)
    ensures Knows(c, s, FetchTurn(c, s, p, w))
  {
  }

  lemma ValidateKnows(c: Config, s: State, p: Proc, w: World)
    requires p.Validate? && ProcOk(c, s, p)
    ensures Knows(c, s, ValidateTurn(s, p, w))
  {
  }

  lemma LateKnows(c: Config, s: State, p: Proc, w: World)
    ensures p.Poll? ==> Knows(c, s, PollTurn(s, p, w))
    ensures p.Trigger? ==> Knows(c, s, TriggerTurn(s, p, w))
  {
  }

  lemma JobKnows(c: Config, s: State, p: Proc, w: World)
    ensures p.Promote? ==> Knows(c, s, PromoteTurn(s, p, w))
    ensures p.SweepOrders? ==> Knows(c, s, SweepOrdersTurn(p, w))
    ensures p.SweepAuthzs? ==> Knows(c, s, SweepAuthzsTurn(p, w))
  {
  }

  lemma TurnKnows(c: Config, s: State, pid: nat, p: Proc, w: World)
    requires ProcOk(c, s, p)
    ensures Knows(c, s, TurnOf(c, s, pid, p, w))
  {
    match p
    case Finalize(_, _, _, _) => FinalizeKnows(c, s, pid, p, w);
    case Enroll(_, _, _, _, _) => EnrollKnows(c, s, p, w);
    case Create(_, _, _, _, _, _) => CreateKnows(c, s, p, w);
    case Fetch(_, _) => FetchKnows(c, s, p, w);
    case Validate(_, _, _) => ValidateKnows(c, s, p, w);
    case Poll(_, _, _) => LateKnows(c, s, p, w);
    case Trigger(_, _, _, _) => LateKnows(c, s, p, w);
    case _ => JobKnows(c, s, p, w);
  }

  lemma ShownNow(c: Config, s: State, pid: nat, turn: Turn, a: string)
    requires Grows(s, Take(s, pid, turn)) && turn.Turn?
    requires Proven(c, s, a) || (turn.note.Some? && Shows(c, s.db, turn.note.value, a))
    ensures Proven(c, Take(s, pid, turn), a)
  {
    var t := Take(s, pid, turn);
    if Proven(c, s, a) {
      ProvenGrows(c, s, t, a);
    } else {
      assert Shows(c, t.db, t.log[|s.log|], a);
    }
  }

  lemma NeedsStay(s: State, t: State, p: Proc)
    requires Grows(s, t) && (p.Validate? ==> p.challenge in s.db.challenges)
    ensures Needs(t.db, p) == Needs(s.db, p)
  {
  }

  lemma TakeMoves(c: Config, s: State, pid: nat, turn: Turn)
    requires pid in s.procs && ProcOk(c, s, s.procs[pid]) && Knows(c, s, turn) && Grows(s, Take(s, pid, turn))
    ensures var t := Take(s, pid, turn);
            ProcOk(c, t, t.procs[pid]) && (turn.Spawn? ==> ProcOk(c, t, turn.thread))
  {
    var t := Take(s, pid, turn);
    match turn
    case Turn(q, _, note) =>
      NeedsStay(s, t, q);
      if Needs(s.db, q).Some? {
        ShownNow(c, s, pid, turn, Needs(s.db, q).value);
      }
    case _ => ProcGrows(c, s, t, s.procs[pid]);
  }

  lemma ValidByWrite(db: Tables, write: Write, a: string)
    requires var e := Apply(db, write); a in e.authzs && e.authzs[a].status == Valid
    ensures || (a in db.authzs && db.authzs[a].status == Valid)
            || (write.AuthzTo? && write.authz == a && write.status == Valid)
            || (write.NewAuthz? && write.arow.status == Valid)
  {
  }

  lemma ValidIsProvenAfter(c: Config, s: State, pid: nat, turn: Turn, a: string)
    requires a in s.db.authzs && s.db.authzs[a].status == Valid ==> Proven(c, s, a)
    requires Grows(s, Take(s, pid, turn)) && Justified(c, s, turn)
    requires var t := Take(s, pid, turn); a in t.db.authzs && t.db.authzs[a].status == Valid
    ensures Proven(c, Take(s, pid, turn), a)
  {
    if turn.Turn? {
      ValidByWrite(s.db, turn.write, a);
      ShownNow(c, s, pid, turn, a);
    } else {
      ProvenGrows(c, s, Take(s, pid, turn), a);
    }
  }

  lemma TakeKeeps(c: Config, s: State, pid: nat, turn: Turn)
    requires Inv(c, s) && pid in s.procs && Tidy(s.procs[pid], turn) && Justified(c, s, turn) && Knows(c, s, turn)
    ensures Inv(c, Take(s, pid, turn))
  {
    var t := Take(s, pid, turn);
    TakeGrows(s, pid, turn);
    TakeCarries(s, pid, turn);
    TakeMoves(c, s, pid, turn);
    ProcsGrow(c, s, t);
    forall a | a in t.db.authzs && t.db.authzs[a].status == Valid ensures Proven(c, t, a) {
      ValidIsProvenAfter(c, s, pid, turn, a);
    }
  }

  lemma ProcsGrow(c: Config, s: State, t: State)
    requires Inv(c, s) && Grows(s, t)
    ensures forall q | q in s.procs :: ProcOk(c, t, s.procs[q])
  {
    forall q | q in s.procs ensures ProcOk(c, t, s.procs[q]) {
      ProcGrows(c, s, t, s.procs[q]);
    }
  }

  lemma AdvanceKeeps(c: Config, s: State, pid: nat, w: World)
    requires Inv(c, s) && pid in s.procs
    ensures Inv(c, Take(s, pid, TurnOf(c, s, pid, s.procs[pid], w)))
  {
    var p := s.procs[pid];
    assert ProcOk(c, s, p) && CarriesCert(p);
    TurnTidy(c, s, pid, p, w);
    TurnJustified(c, s, pid, p, w);
    TurnKnows(c, s, pid, p, w);
    TakeKeeps(c, s, pid, TurnOf(c, s, pid, p, w));
  }

  lemma OthersKeep(c: Config, s: State, t: State)
    requires Inv(c, s) && Grows(s, t) && AllCarry(t) && t.db.authzs == s.db.authzs
    requires forall pid | pid in t.procs && pid !in s.procs :: ProcOk(c, t, t.procs[pid])
    requires forall pid | pid in s.procs :: t.procs[pid] == s.procs[pid]
    ensures Inv(c, t)
  {
    ProcsGrow(c, s, t);
    forall x | x in t.db.authzs && t.db.authzs[x].status == Valid ensures Proven(c, t, x) {
      ProvenGrows(c, s, t, x);
    }
  }

  lemma StartKeeps(c: Config, s: State, pid: nat, p: Proc)
    requires Inv(c, s) && pid !in s.procs && MayStart(c, s, p)
    ensures Inv(c, s.(procs := s.procs[pid := p]))
  {
    StartGrows(c, s, pid, p);
    OthersKeep(c, s, s.(procs := s.procs[pid := p]));
  }

  lemma StepKeeps(c: Config, s: State, a: Action)
    requires Inv(c, s)
    ensures Inv(c, Step(c, s, a))
  {
    match a
    case Advance(pid, w) =>
      if pid in s.procs && pid !in s.dead {
        AdvanceKeeps(c, s, pid, w);
      }
    case Start(pid, p) =>
      if pid !in s.procs && MayStart(c, s, p) {
        StartKeeps(c, s, pid, p);
      }
    case _ =>
      StepGrows(c, s, a);
      OtherActions(c, s, a);
      OthersKeep(c, s, Step(c, s, a));
  }

  /** In every run, an authorization that is valid has evidence in the history: a
      validator accepted a challenge of that very authorization, validation was disabled
      for one, or prevalidation, just-in-time validation or simulation mode - each only
      where configured - made it valid. */
  lemma {:induction false} ValidHasEvidence(c: Config, acts: seq<Action>)
    ensures forall a | a in Run(c, acts).db.authzs && Run(c, acts).db.authzs[a].status == Valid ::
              exists i :: 0 <= i < |Run(c, acts).log| && Shows(c, Run(c, acts).db, Run(c, acts).log[i], a)
    ensures Inv(c, Run(c, acts))
  {
    if acts != [] {
      ValidHasEvidence(c, acts[..|acts| - 1]);
      StepKeeps(c, Run(c, acts[..|acts| - 1]), acts[|acts| - 1]);
    }
    var s := Run(c, acts);
    assert forall a | a in s.db.authzs && s.db.authzs[a].status == Valid :: Proven(c, s, a);
  }

  /** From one point of a run to a later one the state only grows. */
  lemma {:induction false} RunGrows(c: Config, acts: seq<Action>, n: nat)
    requires n <= |acts|
    ensures Grows(Run(c, acts[..n]), Run(c, acts))
  {
    ValidHasEvidence(c, acts);
    if n == |acts| {
      assert acts[..n] == acts;
      TasksStay(Run(c, acts));
    } else {
      var before := acts[..|acts| - 1];
      assert before[..n] == acts[..n];
      RunGrows(c, before, n);
      ValidHasEvidence(c, before);
      StepGrows(c, Run(c, before), acts[|acts| - 1]);
      GrowsTransitive(Run(c, acts[..n]), Run(c, before), Run(c, acts));
    }
  }
}
