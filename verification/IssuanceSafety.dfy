/** End-to-end issuance safety, over every interleaved run. */
module IssuanceSafety {
  import opened AcmeTables
  import opened Binding
  import opened OrderMachine
  import opened Growth

  // ---------- what an issuance must have behind it ----------

  /** `names` are distinct authorizations of the order, the k-th one for the k-th identifier. */
  ghost predicate OwnAuthzs(authzs: map<string, AuthzRow>, o: string, ids: seq<Identifier>, names: seq<string>) {
    && |names| <= |ids|
    && (forall i, j | 0 <= i < j < |names| :: names[i] != names[j])
    && forall k | 0 <= k < |names| ::
         names[k] in authzs && authzs[names[k]].order == o && authzs[names[k]].identifier == ids[k]
  }

  /** Every identifier has its own valid and unexpired authorization. */
  ghost predicate Authorised(authzs: map<string, AuthzRow>, o: string, ids: seq<Identifier>, names: seq<string>,
                             at: int)
  {
    && ids != [] && |names| == |ids|
    && OwnAuthzs(authzs, o, ids, names)
    && forall k | 0 <= k < |names| :: UsableAt(authzs[names[k]], at)
  }

  /** Among the first n events, the request won the claim of the order. */
  ghost predicate ClaimedBefore(log: seq<Event>, pid: nat, o: string, n: nat) {
    exists i :: 0 <= i < n <= |log| && log[i] == ClaimWon(pid, o)
  }

  /** Event j is the passing of the gate by this request, after its claim, with every
      identifier of the order authorised in the table the gate read. */
  ghost predicate GateAt(s: State, pid: nat, o: string, j: nat)
    requires o in s.db.orders && o in s.disclosed
  {
    && j < |s.log| && s.log[j].GatePassed? && s.log[j].pid == pid && s.log[j].order == o
    && ClaimedBefore(s.log, pid, o, j)
    && Authorised(s.log[j].rows, o, s.db.orders[o].identifiers, s.disclosed[o], s.log[j].at)
  }

  ghost predicate GatedBefore(s: State, pid: nat, o: string, n: nat) {
    && o in s.db.orders && o in s.disclosed
    && exists j :: 0 <= j < n && GateAt(s, pid, o, j)
  }

  /** The request comes from the account that owns the order. */
  ghost predicate OwnerAsked(s: State, pid: nat, o: string) {
    && pid in s.procs && s.procs[pid].Finalize? && s.procs[pid].order == o
    && s.procs[pid].account != ""
    && o in s.db.orders && s.db.orders[o].account == s.procs[pid].account
  }

  /** The CSR fits the order and the order is no dry run. */
  ghost predicate Bound(c: Config, s: State, o: string, csr: string) {
    && o in s.db.orders
    && CsrMatches(c, s.db.orders[o].identifiers, csr)
    && !DryRun(c, s.db.orders[o].profile)
  }

  /** Request `pid` may have `csr` issued for the order, by what happened before event n. */
  ghost predicate Cleared(c: Config, s: State, pid: nat, o: string, csr: string, n: nat) {
    && OwnerAsked(s, pid, o) && s.procs[pid].payloadCsr == Some(csr)
    && Bound(c, s, o, csr)
    && GatedBefore(s, pid, o, n)
  }

  // ---------- the invariant ----------

  ghost predicate DisclosedOk(s: State) {
    forall o | o in s.disclosed ::
      && o in s.db.orders
      && s.db.orders[o].identifiers != []
      && |s.disclosed[o]| == |s.db.orders[o].identifiers|
      && OwnAuthzs(s.db.authzs, o, s.db.orders[o].identifiers, s.disclosed[o])
  }

  ghost predicate CreateOk(s: State, p: Proc)
    requires p.Create?
  {
    && p.identifiers != []
    && (p.cpc == CBegin ==> p.names == [])
    && (p.cpc != CBegin && p.cpc != CEnd ==>
          && p.order in s.db.orders && s.db.orders[p.order].identifiers == p.identifiers
          && OwnAuthzs(s.db.authzs, p.order, p.identifiers, p.names))
  }

  /** How far a finalize request has come. */
  function Stage(pc: FinalizePc): nat {
    match pc
    case FArrived => 0
    case FAnswered(_) => 0
    case FEscaped => 0
    case FOwned => 1
    case FSawReady => 2
    case FClaimed => 3
    case FGateFailed => 3
    case FGated => 4
    case FCsrStored(_) => 4
    case FBound(_) => 5
    case FWaiting(_) => 5
    case FSucceeded => 5
  }

  ghost predicate FinalizeOk(c: Config, s: State, pid: nat, p: Proc)
    requires p.Finalize?
  {
    && p.order in s.disclosed
    && (Stage(p.fpc) >= 1 ==> p.account != "" && p.order in s.db.orders && s.db.orders[p.order].account == p.account)
    && (Stage(p.fpc) >= 2 ==> p.payloadCsr.Some?)
    && (Stage(p.fpc) >= 3 ==> ClaimedBefore(s.log, pid, p.order, |s.log|))
    && (Stage(p.fpc) >= 4 ==> GatedBefore(s, pid, p.order, |s.log|))
    && (Stage(p.fpc) >= 5 ==> Bound(c, s, p.order, p.payloadCsr.value))
  }

  ghost predicate ProcOk(c: Config, s: State, pid: nat, p: Proc) {
    match p
    case Create(_, _, _, _, _, _) => CreateOk(s, p)
    case Finalize(_, _, _, _) => FinalizeOk(c, s, pid, p)
    case Enroll(parent, o, csr, _, _) => Cleared(c, s, parent, o, csr, |s.log|)
    case _ => true
  }

  ghost predicate IssuesOk(c: Config, s: State) {
    forall i | 0 <= i < |s.log| && s.log[i].Issued? :: Cleared(c, s, s.log[i].pid, s.log[i].order, s.log[i].csr, i)
  }

  ghost predicate Inv(c: Config, s: State) {
    && AllCarry(s)
    && DisclosedOk(s)
    && (forall pid | pid in s.procs :: ProcOk(c, s, pid, s.procs[pid]))
    && IssuesOk(c, s)
  }

  // ---------- nothing of this is lost as the state grows ----------

  lemma ClaimedGrows(log: seq<Event>, more: seq<Event>, pid: nat, o: string, n: nat, m: nat)
    requires ClaimedBefore(log, pid, o, n) && log <= more && n <= m <= |more|
    ensures ClaimedBefore(more, pid, o, m)
  {
    var i :| 0 <= i < n <= |log| && log[i] == ClaimWon(pid, o);
    assert more[i] == ClaimWon(pid, o);
  }

  lemma GatedGrows(s: State, t: State, pid: nat, o: string, n: nat, m: nat)
    requires GatedBefore(s, pid, o, n) && Grows(s, t) && n <= m
    ensures GatedBefore(t, pid, o, m)
  {
    var j :| 0 <= j < n && GateAt(s, pid, o, j);
    ClaimedGrows(s.log, t.log, pid, o, j, j);
    assert GateAt(t, pid, o, j);
  }

  lemma ClearedGrows(c: Config, s: State, t: State, pid: nat, o: string, csr: string, n: nat, m: nat)
    requires Cleared(c, s, pid, o, csr, n) && Grows(s, t) && n <= m
    ensures Cleared(c, t, pid, o, csr, m)
  {
    GatedGrows(s, t, pid, o, n, m);
    assert SameTask(s.procs[pid], t.procs[pid]);
  }

  lemma ProcGrows(c: Config, s: State, t: State, pid: nat, p: Proc)
    requires ProcOk(c, s, pid, p) && Grows(s, t)
    ensures ProcOk(c, t, pid, p)
  {
    match p
    case Finalize(_, o, _, pc) =>
      if Stage(pc) >= 3 {
        ClaimedGrows(s.log, t.log, pid, o, |s.log|, |t.log|);
      }
      if Stage(pc) >= 4 {
        GatedGrows(s, t, pid, o, |s.log|, |t.log|);
      }
    case Enroll(parent, o, csr, _, _) =>
      ClearedGrows(c, s, t, parent, o, csr, |s.log|, |t.log|);
    case _ =>
  }

  // ---------- one turn ----------

  /** The gate opens only on a table in which every identifier is authorised. */
  lemma OpenGateAuthorises(s: State, o: string)
    requires DisclosedOk(s) && o in s.disclosed && GateOpen(s.db.authzs, o, s.now)
    ensures Authorised(s.db.authzs, o, s.db.orders[o].identifiers, s.disclosed[o], s.now)
  {
  }

  /** Only enrollment threads issue, only finalize requests pass the gate and start threads,
      and only order creation discloses. */
  predicate InRole(p: Proc, t: Turn) {
    && (t.Turn? && t.note.Some? && t.note.value.Issued? ==> p.Enroll?)
    && (t.Turn? && t.note.Some? && t.note.value.GatePassed? ==> p.Finalize?)
    && (t.Spawn? ==> p.Finalize?)
    && (t.Disclose? ==> p.Create?)
  }

  lemma AdmitInRole(c: Config, s: State, pid: nat, p: Proc, w: World)
    requires p.Finalize?
    ensures InRole(p, AdmitTurn(c, s, pid, p, w))
  {
  }

  lemma RedeemInRole(c: Config, s: State, pid: nat, p: Proc, w: World)
    requires p.Finalize?
    ensures InRole(p, RedeemTurn(c, s, pid, p, w))
  {
  }

  lemma FinalizeInRole(c: Config, s: State, pid: nat, p: Proc, w: World)
    requires p.Finalize?
    ensures InRole(p, FinalizeTurn(c, s, pid, p, w))
  {
    AdmitInRole(c, s, pid, p, w);
    RedeemInRole(c, s, pid, p, w);
  }

  lemma EnrollInRole(c: Config, s: State, p: Proc, w: World)
    requires p.Enroll?
    ensures InRole(p, EnrollTurn(c, s, p, w))
  {
  }

  lemma JobInRole(c: Config, s: State, p: Proc, w: World)
    ensures p.Create? ==> InRole(p, CreateTurn(c, s, p, w))
    ensures p.Promote? ==> InRole(p, PromoteTurn(s, p, w))
    ensures p.Poll? ==> InRole(p, PollTurn(s, p, w))
    ensures p.Trigger? ==> InRole(p, TriggerTurn(s, p, w))
    ensures p.Validate? ==> InRole(p, ValidateTurn(s, p, w))
    ensures p.Fetch? ==> InRole(p, FetchTurn(c, s, p, w))
    ensures p.SweepOrders? ==> InRole(p, SweepOrdersTurn(p, w))
    ensures p.SweepAuthzs? ==> InRole(p, SweepAuthzsTurn(p, w))
  {
  }

  lemma TurnInRole(c: Config, s: State, pid: nat, p: Proc, w: World)
    ensures InRole(p, TurnOf(c, s, pid, p, w))
  {
    match p
    case Finalize(_, _, _, _) => FinalizeInRole(c, s, pid, p, w);
    case Enroll(_, _, _, _, _) => EnrollInRole(c, s, p, w);
    case _ => JobInRole(c, s, p, w);
  }

  lemma DisclosedGrows(s: State, t: State)
    requires DisclosedOk(s) && Grows(s, t) && t.disclosed == s.disclosed
    ensures DisclosedOk(t)
  {
  }

  lemma OwnAuthzsGrow(d: Tables, e: Tables, o: string, ids: seq<Identifier>, names: seq<string>)
    requires OwnAuthzs(d.authzs, o, ids, names) && TablesGrow(d, e)
    ensures OwnAuthzs(e.authzs, o, ids, names)
  {
  }

  lemma OneMoreAuthz(authzs: map<string, AuthzRow>, o: string, ids: seq<Identifier>, names: seq<string>,
                     a: string, row: AuthzRow)
    requires OwnAuthzs(authzs, o, ids, names) && |names| < |ids| && a !in authzs
    requires row.order == o && row.identifier == ids[|names|]
    ensures OwnAuthzs(authzs[a := row], o, ids, names + [a])
  {
  }

  lemma OrderIsBegun(c: Config, s: State, pid: nat, p: Proc, w: World)
    requires pid in s.procs && s.procs[pid] == p && p.Create? && p.cpc == CBegin && CreateOk(s, p)
    ensures var t := Take(s, pid, CreateTurn(c, s, p, w)); t.procs[pid].Create? && CreateOk(t, t.procs[pid])
  {
  }

  lemma AuthzIsAdded(c: Config, s: State, pid: nat, p: Proc, w: World)
    requires pid in s.procs && s.procs[pid] == p && p.Create? && p.cpc == CAuthzs && CreateOk(s, p)
    ensures var t := Take(s, pid, CreateTurn(c, s, p, w)); t.procs[pid].Create? && CreateOk(t, t.procs[pid])
  {
    var turn := CreateTurn(c, s, p, w);
    if turn.Turn? {
      OneMoreAuthz(s.db.authzs, p.order, p.identifiers, p.names, turn.write.authz, turn.write.arow);
    }
  }

  lemma AuthzIsSimulated(c: Config, s: State, pid: nat, p: Proc, w: World)
    requires pid in s.procs && s.procs[pid] == p && p.Create? && p.cpc.CSimulate? && CreateOk(s, p)
    requires Grows(s, Take(s, pid, CreateTurn(c, s, p, w)))
    ensures var t := Take(s, pid, CreateTurn(c, s, p, w)); t.procs[pid].Create? && CreateOk(t, t.procs[pid])
  {
    OwnAuthzsGrow(s.db, Take(s, pid, CreateTurn(c, s, p, w)).db, p.order, p.identifiers, p.names);
  }

  lemma CreateMoves(c: Config, s: State, pid: nat, p: Proc, w: World)
    requires pid in s.procs && s.procs[pid] == p && p.Create? && CreateOk(s, p)
    requires Grows(s, Take(s, pid, CreateTurn(c, s, p, w)))
    ensures var t := Take(s, pid, CreateTurn(c, s, p, w)); t.procs[pid].Create? && CreateOk(t, t.procs[pid])
  {
    match p.cpc
    case CBegin => OrderIsBegun(c, s, pid, p, w);
    case CAuthzs => AuthzIsAdded(c, s, pid, p, w);
    case CSimulate(_) => AuthzIsSimulated(c, s, pid, p, w);
    case CEnd =>
  }

  lemma OneMoreDisclosed(s: State, t: State, o: string)
    requires DisclosedOk(s) && Grows(s, t) && t.db == s.db
    requires o in t.disclosed && o in s.db.orders && |t.disclosed[o]| == |s.db.orders[o].identifiers| > 0
    requires OwnAuthzs(s.db.authzs, o, s.db.orders[o].identifiers, t.disclosed[o])
    requires forall x | x in t.disclosed && x != o :: x in s.disclosed
    ensures DisclosedOk(t)
  {
  }

  lemma CreateDiscloses(c: Config, s: State, pid: nat, p: Proc, w: World)
    requires pid in s.procs && s.procs[pid] == p && p.Create? && CreateOk(s, p) && DisclosedOk(s)
    requires Grows(s, Take(s, pid, CreateTurn(c, s, p, w)))
    ensures DisclosedOk(Take(s, pid, CreateTurn(c, s, p, w)))
  {
    var turn := CreateTurn(c, s, p, w);
    var t := Take(s, pid, turn);
    if turn.Disclose? && p.order !in s.disclosed {
      assert turn == Disclose(p.(cpc := CEnd), p.order, p.names);
      OneMoreDisclosed(s, t, p.order);
    } else {
      DisclosedGrows(s, t);
    }
  }

  lemma GateRemembered(s: State, t: State, pid: nat, o: string)
    requires DisclosedOk(s) && o in s.disclosed && GateOpen(s.db.authzs, o, s.now)
    requires ClaimedBefore(s.log, pid, o, |s.log|)
    requires Grows(s, t) && t.log == s.log + [GatePassed(pid, o, s.now, s.db.authzs)]
    ensures GatedBefore(t, pid, o, |t.log|)
  {
    OpenGateAuthorises(s, o);
    ClaimedGrows(s.log, t.log, pid, o, |s.log|, |s.log|);
    assert GateAt(t, pid, o, |s.log|);
  }

  lemma ClaimOk(c: Config, s: State, pid: nat, p: Proc, w: World)
    requires pid in s.procs && s.procs[pid] == p && p.Finalize? && p.fpc == FSawReady && FinalizeOk(c, s, pid, p)
    requires Grows(s, Take(s, pid, AdmitTurn(c, s, pid, p, w)))
    ensures var t := Take(s, pid, AdmitTurn(c, s, pid, p, w));
            t.procs[pid].Finalize? && FinalizeOk(c, t, pid, t.procs[pid])
  {
    var t := Take(s, pid, AdmitTurn(c, s, pid, p, w));
    ProcGrows(c, s, t, pid, p);
    if t.procs[pid].fpc == FClaimed {
      assert t.log[|s.log|] == ClaimWon(pid, p.order);
    }
  }

  lemma GateOk(c: Config, s: State, pid: nat, p: Proc, w: World)
    requires pid in s.procs && s.procs[pid] == p && p.Finalize? && p.fpc == FClaimed && FinalizeOk(c, s, pid, p)
    requires DisclosedOk(s) && Grows(s, Take(s, pid, AdmitTurn(c, s, pid, p, w)))
    ensures var t := Take(s, pid, AdmitTurn(c, s, pid, p, w));
            t.procs[pid].Finalize? && FinalizeOk(c, t, pid, t.procs[pid])
  {
    var t := Take(s, pid, AdmitTurn(c, s, pid, p, w));
    ProcGrows(c, s, t, pid, p);
    if t.procs[pid].fpc == FGated {
      GateRemembered(s, t, pid, p.order);
    }
  }

  lemma OwnerOk(c: Config, s: State, pid: nat, p: Proc, w: World)
    requires pid in s.procs && s.procs[pid] == p && p.Finalize? && FinalizeOk(c, s, pid, p)
    requires p.fpc.FArrived? || p.fpc.FGateFailed?
    ensures var t := Take(s, pid, AdmitTurn(c, s, pid, p, w));
            t.procs[pid].Finalize? && FinalizeOk(c, t, pid, t.procs[pid])
  {
  }

  lemma ReadyOk(c: Config, s: State, pid: nat, p: Proc, w: World)
    requires pid in s.procs && s.procs[pid] == p && p.Finalize? && p.fpc.FOwned? && FinalizeOk(c, s, pid, p)
    ensures var t := Take(s, pid, AdmitTurn(c, s, pid, p, w));
            t.procs[pid].Finalize? && FinalizeOk(c, t, pid, t.procs[pid])
  {
  }

  /** A claim or a passed gate is in the history when the request moves on. */
  lemma AdmitOk(c: Config, s: State, pid: nat, p: Proc, w: World)
    requires pid in s.procs && s.procs[pid] == p && p.Finalize? && FinalizeOk(c, s, pid, p) && DisclosedOk(s)
    requires p.fpc.FArrived? || p.fpc.FOwned? || p.fpc.FSawReady? || p.fpc.FClaimed? || p.fpc.FGateFailed?
    requires Grows(s, Take(s, pid, AdmitTurn(c, s, pid, p, w)))
    ensures var t := Take(s, pid, AdmitTurn(c, s, pid, p, w));
            t.procs[pid].Finalize? && FinalizeOk(c, t, pid, t.procs[pid])
  {
    match p.fpc
    case FSawReady => ClaimOk(c, s, pid, p, w);
    case FClaimed => GateOk(c, s, pid, p, w);
    case FOwned => ReadyOk(c, s, pid, p, w);
    case _ => OwnerOk(c, s, pid, p, w);
  }

  /** What holds of a request holds of it at every stage that is no later. */
  lemma NoLaterOk(c: Config, t: State, pid: nat, p: Proc, q: Proc)
    requires p.Finalize? && FinalizeOk(c, t, pid, p) && SameTask(p, q)
    requires Stage(q.fpc) <= Stage(p.fpc)
    ensures FinalizeOk(c, t, pid, q)
  {
  }

  lemma CsrIsChecked(c: Config, s: State, pid: nat, p: Proc, w: World)
    requires pid in s.procs && s.procs[pid] == p && p.Finalize? && p.fpc.FCsrStored? && FinalizeOk(c, s, pid, p)
    ensures var t := Take(s, pid, RedeemTurn(c, s, pid, p, w));
            t.procs[pid].Finalize? && (t.procs[pid].fpc.FBound? ==> Bound(c, t, p.order, p.payloadCsr.value))
  {
  }

  lemma RedeemStage(c: Config, s: State, pid: nat, p: Proc, w: World)
    requires pid in s.procs && s.procs[pid] == p && p.Finalize? && Stage(p.fpc) >= 4
    ensures var q := Take(s, pid, RedeemTurn(c, s, pid, p, w)).procs[pid];
            q.Finalize? && (Stage(q.fpc) <= Stage(p.fpc) || (p.fpc.FCsrStored? && q.fpc.FBound?))
  {
  }

  lemma RedeemOk(c: Config, s: State, pid: nat, p: Proc, w: World)
    requires pid in s.procs && s.procs[pid] == p && p.Finalize? && FinalizeOk(c, s, pid, p)
    requires Stage(p.fpc) >= 4 || p.fpc.FAnswered? || p.fpc.FEscaped?
    requires Grows(s, Take(s, pid, RedeemTurn(c, s, pid, p, w)))
    ensures var t := Take(s, pid, RedeemTurn(c, s, pid, p, w));
            t.procs[pid].Finalize? && FinalizeOk(c, t, pid, t.procs[pid])
  {
    var t := Take(s, pid, RedeemTurn(c, s, pid, p, w));
    ProcGrows(c, s, t, pid, p);
    if Stage(p.fpc) >= 4 {
      assert SameTask(p, t.procs[pid]);
      RedeemStage(c, s, pid, p, w);
      if p.fpc.FCsrStored? {
        CsrIsChecked(c, s, pid, p, w);
      }
      if Stage(t.procs[pid].fpc) <= Stage(p.fpc) {
        NoLaterOk(c, t, pid, p, t.procs[pid]);
      }
    }
  }

  lemma ThreadOk(c: Config, s: State, pid: nat, p: Proc, w: World)
    requires p.Finalize? && FinalizeOk(c, s, pid, p) && pid in s.procs && s.procs[pid] == p
    ensures var turn := FinalizeTurn(c, s, pid, p, w);
            turn.Spawn? ==>
              turn.thread.Enroll? && Cleared(c, s, turn.thread.parent, turn.thread.order, turn.thread.csr, |s.log|)
  {
  }

  lemma SpawnOk(c: Config, s: State, pid: nat, w: World)
    requires Inv(c, s) && pid in s.procs
    requires Grows(s, Take(s, pid, TurnOf(c, s, pid, s.procs[pid], w)))
    ensures var turn := TurnOf(c, s, pid, s.procs[pid], w);
            turn.Spawn? ==> ProcOk(c, Take(s, pid, turn), turn.child, turn.thread)
  {
    var p := s.procs[pid];
    var turn := TurnOf(c, s, pid, p, w);
    assert ProcOk(c, s, pid, p);
    TurnInRole(c, s, pid, p, w);
    if turn.Spawn? {
      ThreadOk(c, s, pid, p, w);
      ProcGrows(c, s, Take(s, pid, turn), turn.child, turn.thread);
    }
  }

  lemma NoteOk(c: Config, s: State, p: Proc, w: World)
    requires p.Enroll? && Cleared(c, s, p.parent, p.order, p.csr, |s.log|)
    ensures var turn := EnrollTurn(c, s, p, w);
            turn.Turn? && turn.note.Some? && turn.note.value.Issued? ==>
              Cleared(c, s, turn.note.value.pid, turn.note.value.order, turn.note.value.csr, |s.log|)
  {
  }

  lemma IssuesGrow(c: Config, s: State, t: State)
    requires IssuesOk(c, s) && Grows(s, t) && |t.log| <= |s.log| + 1
    requires |t.log| > |s.log| && t.log[|s.log|].Issued? ==>
               Cleared(c, s, t.log[|s.log|].pid, t.log[|s.log|].order, t.log[|s.log|].csr, |s.log|)
    ensures IssuesOk(c, t)
  {
    forall i | 0 <= i < |t.log| && t.log[i].Issued?
      ensures Cleared(c, t, t.log[i].pid, t.log[i].order, t.log[i].csr, i)
    {
      ClearedGrows(c, s, t, t.log[i].pid, t.log[i].order, t.log[i].csr, i, i);
    }
  }

  lemma OthersOk(c: Config, s: State, t: State)
    requires Inv(c, s) && Grows(s, t)
    ensures forall q | q in s.procs :: ProcOk(c, t, q, s.procs[q])
  {
    forall q | q in s.procs ensures ProcOk(c, t, q, s.procs[q]) {
      ProcGrows(c, s, t, q, s.procs[q]);
    }
  }

  lemma FinalizeMoves(c: Config, s: State, pid: nat, p: Proc, w: World)
    requires pid in s.procs && s.procs[pid] == p && p.Finalize? && FinalizeOk(c, s, pid, p) && DisclosedOk(s)
    requires Grows(s, Take(s, pid, FinalizeTurn(c, s, pid, p, w)))
    ensures var t := Take(s, pid, FinalizeTurn(c, s, pid, p, w));
            t.procs[pid].Finalize? && FinalizeOk(c, t, pid, t.procs[pid])
  {
    if p.fpc.FArrived? || p.fpc.FOwned? || p.fpc.FSawReady? || p.fpc.FClaimed? || p.fpc.FGateFailed? {
      AdmitOk(c, s, pid, p, w);
    } else {
      RedeemOk(c, s, pid, p, w);
    }
  }

  lemma MovedOk(c: Config, s: State, pid: nat, w: World)
    requires pid in s.procs && ProcOk(c, s, pid, s.procs[pid]) && DisclosedOk(s)
    requires Grows(s, Take(s, pid, TurnOf(c, s, pid, s.procs[pid], w)))
    ensures var t := Take(s, pid, TurnOf(c, s, pid, s.procs[pid], w));
            ProcOk(c, t, pid, t.procs[pid]) && DisclosedOk(t)
  {
    var p := s.procs[pid];
    var t := Take(s, pid, TurnOf(c, s, pid, p, w));
    assert SameTask(p, t.procs[pid]);
    TurnInRole(c, s, pid, p, w);
    if p.Create? {
      CreateMoves(c, s, pid, p, w);
      CreateDiscloses(c, s, pid, p, w);
    } else {
      DisclosedGrows(s, t);
      if p.Finalize? {
        FinalizeMoves(c, s, pid, p, w);
      } else {
        ProcGrows(c, s, t, pid, p);
      }
    }
  }

  lemma IssuesKept(c: Config, s: State, pid: nat, w: World)
    requires Inv(c, s) && pid in s.procs
    requires Grows(s, Take(s, pid, TurnOf(c, s, pid, s.procs[pid], w)))
    ensures IssuesOk(c, Take(s, pid, TurnOf(c, s, pid, s.procs[pid], w)))
  {
    var p := s.procs[pid];
    assert ProcOk(c, s, pid, p);
    TurnInRole(c, s, pid, p, w);
    if p.Enroll? {
      NoteOk(c, s, p, w);
    }
    IssuesGrow(c, s, Take(s, pid, TurnOf(c, s, pid, p, w)));
  }

  lemma ProcsAfter(s: State, pid: nat, turn: Turn, q: nat)
    requires pid in s.procs && q in Take(s, pid, turn).procs && q != pid
    ensures var t := Take(s, pid, turn);
            || (turn.Spawn? && q == turn.child && t.procs[q] == turn.thread)
            || (q in s.procs && t.procs[q] == s.procs[q])
  {
  }

  lemma TakeKeeps(c: Config, s: State, pid: nat, turn: Turn)
    requires Inv(c, s) && pid in s.procs && Tidy(s.procs[pid], turn)
    requires var t := Take(s, pid, turn);
             && ProcOk(c, t, pid, t.procs[pid]) && DisclosedOk(t) && IssuesOk(c, t)
             && (turn.Spawn? ==> ProcOk(c, t, turn.child, turn.thread))
    ensures Inv(c, Take(s, pid, turn))
  {
    var t := Take(s, pid, turn);
    TakeGrows(s, pid, turn);
    TakeCarries(s, pid, turn);
    OthersOk(c, s, t);
    forall q | q in t.procs ensures ProcOk(c, t, q, t.procs[q]) {
      if q != pid {
        ProcsAfter(s, pid, turn, q);
      }
    }
  }

  lemma AdvanceKeeps(c: Config, s: State, pid: nat, w: World)
    requires Inv(c, s) && pid in s.procs
    ensures Inv(c, Take(s, pid, TurnOf(c, s, pid, s.procs[pid], w)))
  {
    var turn := TurnOf(c, s, pid, s.procs[pid], w);
    assert ProcOk(c, s, pid, s.procs[pid]);
    TurnTidy(c, s, pid, s.procs[pid], w);
    TakeGrows(s, pid, turn);
    MovedOk(c, s, pid, w);
    IssuesKept(c, s, pid, w);
    SpawnOk(c, s, pid, w);
    TakeKeeps(c, s, pid, turn);
  }

  lemma StillOk(c: Config, s: State, t: State)
    requires Inv(c, s) && Grows(s, t) && AllCarry(t) && t.disclosed == s.disclosed && |t.log| <= |s.log| + 1
    requires |t.log| > |s.log| ==> !t.log[|s.log|].Issued?
    requires forall q | q in s.procs :: t.procs[q] == s.procs[q]
    requires forall q | q in t.procs && q !in s.procs :: ProcOk(c, t, q, t.procs[q])
    ensures Inv(c, t)
  {
    DisclosedGrows(s, t);
    OthersOk(c, s, t);
    IssuesGrow(c, s, t);
  }

  lemma StartKeeps(c: Config, s: State, pid: nat, p: Proc)
    requires Inv(c, s) && pid !in s.procs && MayStart(c, s, p)
    ensures Inv(c, s.(procs := s.procs[pid := p]))
  {
    StartGrows(c, s, pid, p);
    StillOk(c, s, s.(procs := s.procs[pid := p]));
  }

  lemma StepKeeps(c: Config, s: State, a: Action)
    requires Inv(c, s)
    ensures Inv(c, Step(c, s, a))
  {
    match a
    case Advance(pid, w) =>
      if pid in s.procs && pid !in s.dead {
        AdvanceKeeps(c, s, pid, w);
      }
    case Start(pid, p) =>
      if pid !in s.procs && MayStart(c, s, p) {
        StartKeeps(c, s, pid, p);
      }
    case _ =>
      StepGrows(c, s, a);
      OtherActions(c, s, a);
      StillOk(c, s, Step(c, s, a));
  }

  lemma {:induction false} RunKeeps(c: Config, acts: seq<Action>)
    ensures Inv(c, Run(c, acts))
  {
    if acts != [] {
      RunKeeps(c, acts[..|acts| - 1]);
      StepKeeps(c, Run(c, acts[..|acts| - 1]), acts[|acts| - 1]);
    }
  }

  // ---------- the theorem ----------

  /** In every run with strict binding and without TNAuthList support, each certificate
      that was issued or reused for an order was asked for by the account of the order,
      through a finalize request whose CSR names are exactly the normalised identifiers
      of the order, which is no dry run; and before it, that very request had won the
      claim of the order and then passed the gate on an authorization table in which
      every identifier had its own valid, unexpired authorization. */
  lemma IssuanceIsSafe(c: Config, acts: seq<Action>, i: nat)
    requires c.strict && !c.tnauth
    requires i < |Run(c, acts).log| && Run(c, acts).log[i].Issued?
    ensures var s := Run(c, acts);
            var e := s.log[i];
            && e.order in s.db.orders && e.order in s.disclosed
            && var order := s.db.orders[e.order];
            && e.pid in s.procs && s.procs[e.pid].Finalize? && s.procs[e.pid].order == e.order
            && s.procs[e.pid].account == order.account && order.account != ""
            && s.procs[e.pid].payloadCsr == Some(e.csr)
            && c.parseCsr(e.csr).Some?
            && CsrNames(c.parseCsr(e.csr).value, c.rules) == OrderNames(order.identifiers, c.rules)
            && CsrNames(c.parseCsr(e.csr).value, c.rules) != {}
            && !c.dryrun && (order.profile == "" || c.dryrunProfile != Some(order.profile))
            && exists k, j :: 0 <= k < j < i
                 && s.log[k] == ClaimWon(e.pid, e.order)
                 && s.log[j].GatePassed? && s.log[j].pid == e.pid && s.log[j].order == e.order
                 && Authorised(s.log[j].rows, e.order, order.identifiers, s.disclosed[e.order], s.log[j].at)
  {
    RunKeeps(c, acts);
    var s := Run(c, acts);
    var e := s.log[i];
    assert Cleared(c, s, e.pid, e.order, e.csr, i);
    var j :| 0 <= j < i && GateAt(s, e.pid, e.order, j);
    var k :| 0 <= k < j <= |s.log| && s.log[k] == ClaimWon(e.pid, e.order);
    assert s.log[k] == ClaimWon(e.pid, e.order) && s.log[j].GatePassed?;
  }

  /** A turn that passes the gate remembers the table and the time of its state. */
  predicate NotesTheTable(s: State, t: Turn) {
    t.Turn? && t.note.Some? && t.note.value.GatePassed? ==>
      t.note.value.rows == s.db.authzs && t.note.value.at == s.now
  }

  lemma FinalizeNote(c: Config, s: State, pid: nat, p: Proc, w: World)
    requires p.Finalize?
    ensures NotesTheTable(s, AdmitTurn(c, s, pid, p, w)) && NotesTheTable(s, RedeemTurn(c, s, pid, p, w))
  {
  }

  lemma GateNote(c: Config, s: State, pid: nat, p: Proc, w: World)
    ensures NotesTheTable(s, TurnOf(c, s, pid, p, w))
  {
    TurnInRole(c, s, pid, p, w);
    if p.Finalize? {
      FinalizeNote(c, s, pid, p, w);
    }
  }

  lemma StepNotes(c: Config, s: State, a: Action)
    ensures var t := Step(c, s, a);
            && |t.log| <= |s.log| + 1
            && (|t.log| > |s.log| && t.log[|s.log|].GatePassed? ==>
                  t.log[|s.log|].rows == s.db.authzs && t.log[|s.log|].at == s.now)
  {
    if a.Advance? && a.pid in s.procs {
      GateNote(c, s, a.pid, s.procs[a.pid], a.world);
    }
  }

  /** The table a passed gate is remembered with is the one the server held at that
      moment of the run, and so is the time. */
  lemma {:induction false} GateReadTheTable(c: Config, acts: seq<Action>, j: nat)
    requires j < |Run(c, acts).log| && Run(c, acts).log[j].GatePassed?
    ensures exists n :: 0 <= n < |acts|
              && |Run(c, acts[..n]).log| == j
              && Run(c, acts[..n]).db.authzs == Run(c, acts).log[j].rows
              && Run(c, acts[..n]).now == Run(c, acts).log[j].at
  {
    var before := acts[..|acts| - 1];
    var s := Run(c, before);
    if j < |s.log| {
      RunKeeps(c, before);
      StepGrows(c, s, acts[|acts| - 1]);
      GateReadTheTable(c, before, j);
      var n :| 0 <= n < |before|
        && |Run(c, before[..n]).log| == j
        && Run(c, before[..n]).db.authzs == s.log[j].rows
        && Run(c, before[..n]).now == s.log[j].at;
      assert before[..n] == acts[..n];
    } else {
      StepNotes(c, s, acts[|acts| - 1]);
      assert acts[..|acts| - 1] == before;
    }
  }
}
