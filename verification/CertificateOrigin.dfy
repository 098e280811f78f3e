/** Where the certificate of an order comes from, however late it arrived. */
module CertificateOrigin {
  import opened AcmeTables
  import opened Binding
  import opened OrderMachine
  import opened Growth
  import opened IssuanceSafety
  import opened EndToEnd
  import opened FinalizeServer
  import opened Reaching
  import opened OrderLife
  import LostCertificates
  import FinalizeTable

  /** Request `pid` of the owner won the claim of the order, passed its gate, and sent this CSR. */
  ghost predicate AskedFor(s: State, pid: nat, o: string, csr: string) {
    OwnerAsked(s, pid, o) && s.procs[pid].payloadCsr == Some(csr) && GatedBefore(s, pid, o, |s.log|)
  }

  ghost predicate RowAskedFor(s: State, k: string)
    requires k in s.db.certs
  {
    exists pid :: AskedFor(s, pid, s.db.certs[k].order, s.db.certs[k].csr)
  }

  ghost predicate AllAskedFor(s: State) {
    forall k | k in s.db.certs :: RowAskedFor(s, k)
  }

  lemma AskedForGrows(s: State, t: State, pid: nat, o: string, csr: string)
    requires AskedFor(s, pid, o, csr) && Grows(s, t)
    ensures AskedFor(t, pid, o, csr)
  {
    GatedGrows(s, t, pid, o, |s.log|, |t.log|);
    assert SameTask(s.procs[pid], t.procs[pid]);
  }

  /** A turn that stores a CSR row is one of a finalize request behind its gate. */
  predicate StoresOwnCsr(p: Proc, t: Turn) {
    t.Turn? && t.write.NewCert? ==>
      p.Finalize? && p.fpc == FGated && p.payloadCsr == Some(t.write.krow.csr) && t.write.krow.order == p.order
  }

  lemma AdmitStores(c: Config, s: State, pid: nat, p: Proc, w: World)
    requires p.Finalize?
    ensures StoresOwnCsr(p, AdmitTurn(c, s, pid, p, w))
  {
  }

  lemma RedeemStores(c: Config, s: State, pid: nat, p: Proc, w: World)
    requires p.Finalize?
    ensures StoresOwnCsr(p, RedeemTurn(c, s, pid, p, w))
  {
  }

  lemma EnrollStores(c: Config, s: State, p: Proc, w: World)
    requires p.Enroll?
    ensures StoresOwnCsr(p, EnrollTurn(c, s, p, w))
  {
  }

  lemma JobStores(c: Config, s: State, p: Proc, w: World)
    ensures p.Create? ==> StoresOwnCsr(p, CreateTurn(c, s, p, w))
    ensures p.Promote? ==> StoresOwnCsr(p, PromoteTurn(s, p, w))
    ensures p.Poll? ==> StoresOwnCsr(p, PollTurn(s, p, w))
    ensures p.Trigger? ==> StoresOwnCsr(p, TriggerTurn(s, p, w))
    ensures p.Validate? ==> StoresOwnCsr(p, ValidateTurn(s, p, w))
    ensures p.Fetch? ==> StoresOwnCsr(p, FetchTurn(c, s, p, w))
    ensures p.SweepOrders? ==> StoresOwnCsr(p, SweepOrdersTurn(p, w))
    ensures p.SweepAuthzs? ==> StoresOwnCsr(p, SweepAuthzsTurn(p, w))
  {
  }

  lemma TurnStores(c: Config, s: State, pid: nat, p: Proc, w: World)
    ensures StoresOwnCsr(p, TurnOf(c, s, pid, p, w))
  {
    match p
    case Finalize(_, _, _, _) =>
      AdmitStores(c, s, pid, p, w);
      RedeemStores(c, s, pid, p, w);
    case Enroll(_, _, _, _, _) => EnrollStores(c, s, p, w);
    case _ => JobStores(c, s, p, w);
  }

  lemma OldRowAsked(s: State, t: State, k: string)
    requires AllAskedFor(s) && Grows(s, t) && k in s.db.certs
    ensures k in t.db.certs && RowAskedFor(t, k)
  {
    assert RowAskedFor(s, k);
    var x :| AskedFor(s, x, s.db.certs[k].order, s.db.certs[k].csr);
    AskedForGrows(s, t, x, s.db.certs[k].order, s.db.certs[k].csr);
  }

  lemma NewRow(db: Tables, write: Write, k: string)
    requires k !in db.certs && k in Apply(db, write).certs
    ensures write == NewCert(k, Apply(db, write).certs[k])
  {
  }

  lemma NewRowAsked(c: Config, s: State, pid: nat, turn: Turn, k: string)
    requires pid in s.procs && StoresOwnCsr(s.procs[pid], turn) && Grows(s, Take(s, pid, turn))
    requires s.procs[pid].Finalize? ==> FinalizeOk(c, s, pid, s.procs[pid])
    requires k !in s.db.certs && k in Take(s, pid, turn).db.certs
    ensures RowAskedFor(Take(s, pid, turn), k)
  {
    var p := s.procs[pid];
    NewRow(s.db, turn.write, k);
    assert AskedFor(s, pid, p.order, p.payloadCsr.value);
    AskedForGrows(s, Take(s, pid, turn), pid, p.order, p.payloadCsr.value);
  }

  lemma TakeAsks(c: Config, s: State, pid: nat, turn: Turn)
    requires AllAskedFor(s) && pid in s.procs && StoresOwnCsr(s.procs[pid], turn) && Grows(s, Take(s, pid, turn))
    requires s.procs[pid].Finalize? ==> FinalizeOk(c, s, pid, s.procs[pid])
    ensures AllAskedFor(Take(s, pid, turn))
  {
    var t := Take(s, pid, turn);
    forall k | k in t.db.certs ensures RowAskedFor(t, k) {
      if k in s.db.certs {
        OldRowAsked(s, t, k);
      } else {
        NewRowAsked(c, s, pid, turn, k);
      }
    }
  }

  lemma SameRowsAsked(s: State, t: State)
    requires AllAskedFor(s) && Grows(s, t) && t.db.certs == s.db.certs
    ensures AllAskedFor(t)
  {
    forall k | k in t.db.certs ensures RowAskedFor(t, k) {
      OldRowAsked(s, t, k);
    }
  }

  lemma AdvanceAsks(c: Config, s: State, pid: nat, w: World)
    requires Inv(c, s) && AllAskedFor(s) && pid in s.procs
    ensures AllAskedFor(Take(s, pid, TurnOf(c, s, pid, s.procs[pid], w)))
  {
    assert ProcOk(c, s, pid, s.procs[pid]);
    AdvanceGrows(c, s, pid, w);
    TurnStores(c, s, pid, s.procs[pid], w);
    TakeAsks(c, s, pid, TurnOf(c, s, pid, s.procs[pid], w));
  }

  lemma StepAsks(c: Config, s: State, a: Action)
    requires Inv(c, s) && AllAskedFor(s)
    ensures AllAskedFor(Step(c, s, a))
  {
    match a
    case Advance(pid, w) =>
      if pid in s.procs && pid !in s.dead {
        AdvanceAsks(c, s, pid, w);
      }
    case Start(pid, p) =>
      if pid !in s.procs && MayStart(c, s, p) {
        StartGrows(c, s, pid, p);
        SameRowsAsked(s, s.(procs := s.procs[pid := p]));
      }
    case _ =>
      StepGrows(c, s, a);
      OtherActions(c, s, a);
      SameRowsAsked(s, Step(c, s, a));
  }

  lemma {:induction false} RunAsks(c: Config, acts: seq<Action>)
    ensures AllAskedFor(Run(c, acts))
  {
    if acts != [] {
      RunAsks(c, acts[..|acts| - 1]);
      RunKeeps(c, acts[..|acts| - 1]);
      StepAsks(c, Run(c, acts[..|acts| - 1]), acts[|acts| - 1]);
    }
  }

  /** In every run - certificates that arrive by poll or trigger included - an order with a
      stored certificate has behind it a request of its owner that won the claim and then
      passed the gate on a table in which every identifier had its own valid, unexpired
      authorization; that request sent the CSR of the certificate's row. */
  lemma CertificateHasOwnerAndGate(c: Config, acts: seq<Action>, k: string)
    requires k in Run(c, acts).db.certs && Run(c, acts).db.certs[k].cert != ""
    ensures var s := Run(c, acts);
            var o := s.db.certs[k].order;
            && o in s.db.orders && o in s.disclosed && s.db.orders[o].account != ""
            && exists pid, i, j :: 0 <= i < j < |s.log|
                 && pid in s.procs && s.procs[pid].Finalize? && s.procs[pid].order == o
                 && s.procs[pid].account == s.db.orders[o].account
                 && s.procs[pid].payloadCsr == Some(s.db.certs[k].csr)
                 && s.log[i] == ClaimWon(pid, o)
                 && s.log[j].GatePassed? && s.log[j].pid == pid && s.log[j].order == o
                 && Authorised(s.log[j].rows, o, s.db.orders[o].identifiers, s.disclosed[o], s.log[j].at)
  {
    RunAsks(c, acts);
    var s := Run(c, acts);
    var o := s.db.certs[k].order;
    assert RowAskedFor(s, k);
    var pid :| AskedFor(s, pid, o, s.db.certs[k].csr);
    var j :| 0 <= j < |s.log| && GateAt(s, pid, o, j);
    var i :| 0 <= i < j <= |s.log| && s.log[i] == ClaimWon(pid, o);
    assert s.log[i] == ClaimWon(pid, o) && s.log[j].GatePassed?;
  }

  /** And control over every identifier was shown before that gate: for late certificates,
      too, each own authorization has its evidence - an accepted challenge, or a shortcut that
      is configured - before the gate of the request behind the certificate. */
  lemma CertificateOnlyAfterProof(c: Config, acts: seq<Action>, k: string)
    requires k in Run(c, acts).db.certs && Run(c, acts).db.certs[k].cert != ""
    ensures var s := Run(c, acts);
            var o := s.db.certs[k].order;
            && o in s.db.orders && o in s.disclosed
            && var ids, names := s.db.orders[o].identifiers, s.disclosed[o];
            && ids != [] && |names| == |ids| && OwnAuthzs(s.db.authzs, o, ids, names)
            && exists pid, j :: 0 <= j < |s.log| && OwnerAsked(s, pid, o)
                 && s.procs[pid].payloadCsr == Some(s.db.certs[k].csr)
                 && s.log[j].GatePassed? && s.log[j].pid == pid && s.log[j].order == o
                 && forall n | 0 <= n < |ids| :: ShownBefore(c, s, names[n], j)
  {
    RunAsks(c, acts);
    RunKeeps(c, acts);
    var s := Run(c, acts);
    var o := s.db.certs[k].order;
    assert RowAskedFor(s, k);
    var pid :| AskedFor(s, pid, o, s.db.certs[k].csr);
    var j :| 0 <= j < |s.log| && GateAt(s, pid, o, j);
    GatedAfterProof(c, acts, pid, o, j);
    assert s.log[j].GatePassed?;
  }

  lemma GatedAfterProof(c: Config, acts: seq<Action>, pid: nat, o: string, j: nat)
    requires var s := Run(c, acts);
             o in s.db.orders && o in s.disclosed && j < |s.log| && GateAt(s, pid, o, j)
    ensures var s := Run(c, acts);
            forall n | 0 <= n < |s.disclosed[o]| :: ShownBefore(c, s, s.disclosed[o][n], j)
  {
    var s := Run(c, acts);
    forall n | 0 <= n < |s.disclosed[o]| ensures ShownBefore(c, s, s.disclosed[o][n], j) {
      UsableWasShown(c, acts, j, s.disclosed[o][n]);
    }
  }

  // ---------- binding ----------

  /** What the CA was asked for, or was reused, always fits its order; so a certificate in the
      row of a CSR that does not fit came by poll or trigger. */
  lemma AskedCertificatesAreBound(c: Config, acts: seq<Action>, o: string, csr: string)
    requires o in Run(c, acts).db.orders && !CsrMatches(c, Run(c, acts).db.orders[o].identifiers, csr)
    ensures forall i | 0 <= i < |Run(c, acts).log| ::
              !(Run(c, acts).log[i].Issued? && Run(c, acts).log[i].order == o && Run(c, acts).log[i].csr == csr)
  {
    RunKeeps(c, acts);
    var s := Run(c, acts);
    forall i | 0 <= i < |s.log| ensures !(s.log[i].Issued? && s.log[i].order == o && s.log[i].csr == csr) {
      assert s.log[i].Issued? ==> Cleared(c, s, s.log[i].pid, s.log[i].order, s.log[i].csr, i);
    }
  }

  /** With legacy binding, too, the CA is asked only for a CSR that can be read and has a SAN, and
      each SAN is the text of an identifier of the order; and where TNAuthList orders are
      supported, only for what their own comparison accepts. */
  lemma AskedNamesAreIdentifiers(c: Config, acts: seq<Action>, i: nat)
    requires i < |Run(c, acts).log| && Run(c, acts).log[i].Issued?
    ensures var e, orders := Run(c, acts).log[i], Run(c, acts).db.orders;
            && e.order in orders
            && var ids := orders[e.order].identifiers;
            if c.tnauth && (exists k :: 0 <= k < |ids| && Lower(ids[k].kind) == "tnauthlist") then
              c.tnauthMatch(ids, e.csr)
            else
              && c.parseCsr(e.csr).Some?
              && (!c.strict ==>
                    var read := c.parseCsr(e.csr).value;
                    && (read.dns != [] || read.ips != [] || read.emails != [])
                    && (forall v | v in read.dns :: FinalizeTable.Names(ids, "dns", v))
                    && (forall v | v in read.ips :: FinalizeTable.Names(ids, "ip", v))
                    && (forall v | v in read.emails :: FinalizeTable.Names(ids, "email", v)))
  {
    RunKeeps(c, acts);
    var s := Run(c, acts);
    assert Cleared(c, s, s.log[i].pid, s.log[i].order, s.log[i].csr, i);
    FinalizeTable.FittingCsr(c, s.db.orders[s.log[i].order].identifiers, s.log[i].csr);
  }

  /** The CSR row is stored before the CSR is checked, a CSR that does not fit leaves the
      order in processing, and the trigger looks at the public key alone: such an order can
      become valid with a certificate for other names. */
  lemma TriggerIgnoresBinding(c: Config, o: string, account: string, ids: seq<Identifier>, names: seq<string>,
                              chs: seq<string>, csr: string, out: Outside, bundle: string, raw: string)
    returns (u: State)
    requires !c.simulation && !c.jit && c.prevalidation == {} && account != ""
    requires bundle != "" && raw != "" && csr != "" && c.sameKey(csr, raw)
    requires ids != [] && |names| == |ids| == |chs| && Distinct(names) && Distinct(chs)
    requires !CsrMatches(c, ids, csr) && out.csrAccepted
    ensures Reaches(c, Initial(), u)
    ensures HasStatus(u.db, o, Valid) && u.db.orders[o].identifiers == ids
    ensures out.certName in u.db.certs && u.db.certs[out.certName].order == o
    ensures u.db.certs[out.certName].cert == bundle && u.db.certs[out.certName].csr == csr
  {
    var R := Reachable(c, Initial());
    ReachableIsClosed(c, Initial());
    var t := OrderIsProved(c, R, o, account, ids, names, chs);
    ProvedOpensGate(t, o, account, ids, names, chs);
    var r := ProvedIsFinalized(c, R, t, o, account, ids, names, chs, csr, out);
    u := LostCertificates.OneHitIsARun(c, r, 2 * |names| + 3, out.certName, o, bundle, raw, false);
    ReachesTransitive(c, Initial(), r, u);
  }
}
