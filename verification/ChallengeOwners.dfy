/** Who proves control: in every run, the account that owns the order. */
module ChallengeOwners {
  import opened AcmeTables
  import opened OrderMachine
  import opened Growth

  /** The challenge belongs to an authorization of an order of this account. */
  predicate OwnedBy(db: Tables, ch: string, account: string) {
    && account != ""
    && ch in db.challenges && db.challenges[ch].authz in db.authzs
    && db.authzs[db.challenges[ch].authz].order in db.orders
    && db.orders[db.authzs[db.challenges[ch].authz].order].account == account
  }

  /** Thread `pid` validates this challenge for the account that owns it. */
  predicate ValidatesOwn(s: State, pid: nat, ch: string) {
    && pid in s.procs && s.procs[pid].Validate? && s.procs[pid].challenge == ch
    && OwnedBy(s.db, ch, s.procs[pid].account)
  }

  ghost predicate AllOwned(s: State) {
    forall pid | pid in s.procs && s.procs[pid].Validate? :: ValidatesOwn(s, pid, s.procs[pid].challenge)
  }

  predicate ByChallenge(e: Event) {
    e.Evidence? && (e.proof.ValidatorPassed? || e.proof.ValidationDisabled?)
  }

  ghost predicate ShownByOwner(s: State, e: Event) {
    ByChallenge(e) ==>
      && e.proof.challenge in s.db.challenges && s.db.challenges[e.proof.challenge].authz == e.authz
      && exists pid :: ValidatesOwn(s, pid, e.proof.challenge)
  }

  ghost predicate AllShownByOwner(s: State) {
    forall i | 0 <= i < |s.log| :: ShownByOwner(s, s.log[i])
  }

  lemma OwnValidationStays(s: State, t: State, pid: nat, ch: string)
    requires ValidatesOwn(s, pid, ch) && Grows(s, t)
    ensures ValidatesOwn(t, pid, ch)
  {
    assert SameTask(s.procs[pid], t.procs[pid]);
  }

  lemma ShownStays(s: State, t: State, e: Event)
    requires ShownByOwner(s, e) && Grows(s, t)
    ensures ShownByOwner(t, e)
  {
    if ByChallenge(e) {
      var pid :| ValidatesOwn(s, pid, e.proof.challenge);
      OwnValidationStays(s, t, pid, e.proof.challenge);
    }
  }

  /** A turn starts no validation, and only one of a validation speaks for a challenge. */
  predicate SpeaksForOwn(s: State, p: Proc, t: Turn) {
    && (t.Spawn? ==> !t.thread.Validate?)
    && (t.Turn? && t.note.Some? && ByChallenge(t.note.value) ==>
          && p.Validate? && t.note.value.proof.challenge == p.challenge
          && p.challenge in s.db.challenges && t.note.value.authz == s.db.challenges[p.challenge].authz)
  }

  lemma RequestSpeaks(c: Config, s: State, pid: nat, p: Proc, w: World)
    requires p.Finalize?
    ensures SpeaksForOwn(s, p, AdmitTurn(c, s, pid, p, w)) && SpeaksForOwn(s, p, RedeemTurn(c, s, pid, p, w))
  {
  }

  lemma ThreadSpeaks(c: Config, s: State, p: Proc, w: World)
    ensures p.Enroll? ==> SpeaksForOwn(s, p, EnrollTurn(c, s, p, w))
    ensures p.Create? ==> SpeaksForOwn(s, p, CreateTurn(c, s, p, w))
    ensures p.Fetch? ==> SpeaksForOwn(s, p, FetchTurn(c, s, p, w))
    ensures p.Validate? ==> SpeaksForOwn(s, p, ValidateTurn(s, p, w))
  {
  }

  lemma JobSpeaks(s: State, p: Proc, w: World)
    ensures p.Promote? ==> SpeaksForOwn(s, p, PromoteTurn(s, p, w))
    ensures p.Poll? ==> SpeaksForOwn(s, p, PollTurn(s, p, w))
    ensures p.Trigger? ==> SpeaksForOwn(s, p, TriggerTurn(s, p, w))
    ensures p.SweepOrders? ==> SpeaksForOwn(s, p, SweepOrdersTurn(p, w))
    ensures p.SweepAuthzs? ==> SpeaksForOwn(s, p, SweepAuthzsTurn(p, w))
  {
  }

  lemma TurnSpeaks(c: Config, s: State, pid: nat, p: Proc, w: World)
    ensures SpeaksForOwn(s, p, TurnOf(c, s, pid, p, w))
  {
    match p
    case Finalize(_, _, _, _) => RequestSpeaks(c, s, pid, p, w);
    case _ =>
      ThreadSpeaks(c, s, p, w);
      JobSpeaks(s, p, w);
  }

  lemma TakeKeepsOwners(s: State, pid: nat, turn: Turn)
    requires AllOwned(s) && pid in s.procs && SpeaksForOwn(s, s.procs[pid], turn) && Grows(s, Take(s, pid, turn))
    ensures AllOwned(Take(s, pid, turn))
  {
    var t := Take(s, pid, turn);
    forall q | q in t.procs && t.procs[q].Validate? ensures ValidatesOwn(t, q, t.procs[q].challenge) {
      assert q in s.procs;
      assert SameTask(s.procs[q], t.procs[q]);
      OwnValidationStays(s, t, q, s.procs[q].challenge);
    }
  }

  lemma TakeIsShown(s: State, pid: nat, turn: Turn)
    requires AllOwned(s) && AllShownByOwner(s) && pid in s.procs && SpeaksForOwn(s, s.procs[pid], turn)
    requires Grows(s, Take(s, pid, turn))
    ensures AllShownByOwner(Take(s, pid, turn))
  {
    var t := Take(s, pid, turn);
    forall i | 0 <= i < |t.log| ensures ShownByOwner(t, t.log[i]) {
      assert t.log[i] == if i < |s.log| then s.log[i] else turn.note.value;
      if i >= |s.log| && ByChallenge(t.log[i]) {
        assert ValidatesOwn(s, pid, s.procs[pid].challenge);
      }
      ShownStays(s, t, t.log[i]);
    }
  }

  lemma OtherStepsKeepOwners(c: Config, s: State, a: Action)
    requires AllCarry(s) && AllOwned(s) && AllShownByOwner(s) && !a.Advance?
    ensures AllOwned(Step(c, s, a)) && AllShownByOwner(Step(c, s, a))
  {
    var t := Step(c, s, a);
    StepGrows(c, s, a);
    if !a.Start? {
      OtherActions(c, s, a);
    }
    forall q | q in t.procs && t.procs[q].Validate? ensures ValidatesOwn(t, q, t.procs[q].challenge) {
      if q in s.procs {
        OwnValidationStays(s, t, q, s.procs[q].challenge);
      }
    }
    forall i | 0 <= i < |t.log| ensures ShownByOwner(t, t.log[i]) {
      if i < |s.log| {
        assert t.log[i] == s.log[i];
        ShownStays(s, t, t.log[i]);
      }
    }
  }

  lemma StepKeepsOwners(c: Config, s: State, a: Action)
    requires AllCarry(s) && AllOwned(s) && AllShownByOwner(s)
    ensures AllOwned(Step(c, s, a)) && AllShownByOwner(Step(c, s, a))
  {
    if !a.Advance? {
      OtherStepsKeepOwners(c, s, a);
    } else if a.pid in s.procs && a.pid !in s.dead {
      var turn := TurnOf(c, s, a.pid, s.procs[a.pid], a.world);
      AdvanceGrows(c, s, a.pid, a.world);
      TurnSpeaks(c, s, a.pid, s.procs[a.pid], a.world);
      TakeKeepsOwners(s, a.pid, turn);
      TakeIsShown(s, a.pid, turn);
    }
  }

  lemma {:induction false} RunKeepsOwners(c: Config, acts: seq<Action>)
    ensures AllCarry(Run(c, acts)) && AllOwned(Run(c, acts)) && AllShownByOwner(Run(c, acts))
  {
    if acts != [] {
      RunKeepsOwners(c, acts[..|acts| - 1]);
      StepGrows(c, Run(c, acts[..|acts| - 1]), acts[|acts| - 1]);
      StepKeepsOwners(c, Run(c, acts[..|acts| - 1]), acts[|acts| - 1]);
    }
  }

  /** In every run, each proof of control by a challenge was given in a validation that the account
      asked for which owns the order of the authorization: no stranger proves for another. */
  lemma ProofIsGivenByOwner(c: Config, acts: seq<Action>, i: nat)
    requires i < |Run(c, acts).log| && Run(c, acts).log[i].Evidence?
    requires Run(c, acts).log[i].proof.ValidatorPassed? || Run(c, acts).log[i].proof.ValidationDisabled?
    ensures var s, e := Run(c, acts), Run(c, acts).log[i];
            var ch := e.proof.challenge;
            && ch in s.db.challenges && s.db.challenges[ch].authz == e.authz
            && e.authz in s.db.authzs && s.db.authzs[e.authz].order in s.db.orders
            && s.db.orders[s.db.authzs[e.authz].order].account != ""
            && exists pid :: pid in s.procs && s.procs[pid].Validate? && s.procs[pid].challenge == ch
                 && s.procs[pid].account == s.db.orders[s.db.authzs[e.authz].order].account
  {
    RunKeepsOwners(c, acts);
    var s, e := Run(c, acts), Run(c, acts).log[i];
    assert ShownByOwner(s, e);
    var pid :| ValidatesOwn(s, pid, e.proof.challenge);
  }
}
