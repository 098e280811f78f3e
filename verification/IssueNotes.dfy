/** Nothing is asked of the CA, and no certificate is taken over, without an event of the history:
    what is shown about such events is shown about all issuance. */
module IssueNotes {
  import opened AcmeTables
  import opened OrderMachine
  import opened Growth

  /** The thread has asked the CA, or taken a stored certificate. */
  predicate HasAsked(p: Proc) {
    p.Enroll?
    && (p.epc.EAtCa? || p.epc.EGotCert? || p.epc.ECertStored? || p.epc.ESuccessHook? || p.epc.ENoCert?
        || p.epc.EPostHook?)
  }

  ghost predicate OnRecord(log: seq<Event>, p: Proc) {
    && p.Enroll?
    && exists i :: 0 <= i < |log| && log[i].Issued? && log[i].pid == p.parent && log[i].order == p.order
                     && log[i].csr == p.csr
  }

  ghost predicate AllOnRecord(s: State) {
    forall pid | pid in s.procs && HasAsked(s.procs[pid]) :: OnRecord(s.log, s.procs[pid])
  }

  lemma RecordStays(log: seq<Event>, more: seq<Event>, p: Proc, q: Proc)
    requires OnRecord(log, p) && log <= more && SameTask(p, q)
    ensures OnRecord(more, q)
  {
    var i :| 0 <= i < |log| && log[i].Issued? && log[i].pid == p.parent && log[i].order == p.order
      && log[i].csr == p.csr;
    assert more[i] == log[i];
  }

  /** A turn that begins to ask says so. */
  predicate SaysSo(p: Proc, t: Turn) {
    && (t.Turn? && HasAsked(t.proc) ==>
          p.Enroll?
          && (HasAsked(p)
              || (t.note.Some? && t.note.value.Issued? && t.note.value.pid == p.parent
                  && t.note.value.order == p.order && t.note.value.csr == p.csr)))
    && (t.Spawn? ==> !HasAsked(t.proc) && !HasAsked(t.thread))
    && (t.Disclose? ==> !HasAsked(t.proc))
  }

  lemma RequestSaysSo(c: Config, s: State, pid: nat, p: Proc, w: World)
    requires p.Finalize?
    ensures SaysSo(p, AdmitTurn(c, s, pid, p, w)) && SaysSo(p, RedeemTurn(c, s, pid, p, w))
  {
  }

  lemma ThreadSaysSo(c: Config, s: State, p: Proc, w: World)
    ensures p.Enroll? ==> SaysSo(p, EnrollTurn(c, s, p, w))
    ensures p.Create? ==> SaysSo(p, CreateTurn(c, s, p, w))
    ensures p.Fetch? ==> SaysSo(p, FetchTurn(c, s, p, w))
  {
  }

  lemma JobSaysSo(s: State, p: Proc, w: World)
    ensures p.Promote? ==> SaysSo(p, PromoteTurn(s, p, w))
    ensures p.Poll? ==> SaysSo(p, PollTurn(s, p, w))
    ensures p.Trigger? ==> SaysSo(p, TriggerTurn(s, p, w))
    ensures p.Validate? ==> SaysSo(p, ValidateTurn(s, p, w))
    ensures p.SweepOrders? ==> SaysSo(p, SweepOrdersTurn(p, w))
    ensures p.SweepAuthzs? ==> SaysSo(p, SweepAuthzsTurn(p, w))
  {
  }

  lemma TurnSaysSo(c: Config, s: State, pid: nat, p: Proc, w: World)
    ensures SaysSo(p, TurnOf(c, s, pid, p, w))
  {
    match p
    case Finalize(_, _, _, _) => RequestSaysSo(c, s, pid, p, w);
    case _ =>
      ThreadSaysSo(c, s, p, w);
      JobSaysSo(s, p, w);
  }

  lemma TakeIsOnRecord(s: State, pid: nat, turn: Turn)
    requires AllOnRecord(s) && pid in s.procs && SaysSo(s.procs[pid], turn) && Grows(s, Take(s, pid, turn))
    ensures AllOnRecord(Take(s, pid, turn))
  {
    var t := Take(s, pid, turn);
    forall q | q in t.procs && HasAsked(t.procs[q]) ensures OnRecord(t.log, t.procs[q]) {
      assert q in s.procs && SameTask(s.procs[q], t.procs[q]);
      if HasAsked(s.procs[q]) {
        RecordStays(s.log, t.log, s.procs[q], t.procs[q]);
      } else {
        assert q == pid && turn.Turn? && t.log[|s.log|] == turn.note.value;
      }
    }
  }

  lemma StepIsOnRecord(c: Config, s: State, a: Action)
    requires AllCarry(s) && AllOnRecord(s)
    ensures AllOnRecord(Step(c, s, a))
  {
    if a.Advance? && a.pid in s.procs && a.pid !in s.dead {
      AdvanceGrows(c, s, a.pid, a.world);
      TurnSaysSo(c, s, a.pid, s.procs[a.pid], a.world);
      TakeIsOnRecord(s, a.pid, TurnOf(c, s, a.pid, s.procs[a.pid], a.world));
    } else if !a.Advance? && !a.Start? {
      StepGrows(c, s, a);
      OtherActions(c, s, a);
      forall q | q in s.procs && HasAsked(s.procs[q]) ensures OnRecord(Step(c, s, a).log, s.procs[q]) {
        assert SameTask(s.procs[q], s.procs[q]);
        RecordStays(s.log, Step(c, s, a).log, s.procs[q], s.procs[q]);
      }
    }
  }

  lemma {:induction false} RunIsOnRecord(c: Config, acts: seq<Action>)
    ensures AllCarry(Run(c, acts)) && AllOnRecord(Run(c, acts))
  {
    if acts != [] {
      RunIsOnRecord(c, acts[..|acts| - 1]);
      StepGrows(c, Run(c, acts[..|acts| - 1]), acts[|acts| - 1]);
      StepIsOnRecord(c, Run(c, acts[..|acts| - 1]), acts[|acts| - 1]);
    }
  }

  /** In every run, an enrollment thread that waits for the CA, or holds a certificate that it got
      there or took over, has an Issued event behind it for the order and the CSR of its request. */
  lemma NothingIsIssuedUnnoticed(c: Config, acts: seq<Action>, pid: nat)
    requires pid in Run(c, acts).procs && Run(c, acts).procs[pid].Enroll?
    requires Run(c, acts).procs[pid].epc.EAtCa? || Run(c, acts).procs[pid].epc.EGotCert?
    ensures var s := Run(c, acts);
            var p := s.procs[pid];
            exists i :: 0 <= i < |s.log| && s.log[i].Issued? && s.log[i].pid == p.parent
                          && s.log[i].order == p.order && s.log[i].csr == p.csr
  {
    RunIsOnRecord(c, acts);
    assert HasAsked(Run(c, acts).procs[pid]);
  }
}
