/** From the issued certificate back to the proof of control over every identifier. */
module EndToEnd {
  import opened AcmeTables
  import opened OrderMachine
  import opened Growth
  import opened IssuanceSafety
  import Provenance

  /** Before event j, something showed control over authorization a. */
  ghost predicate ShownBefore(c: Config, s: State, a: string, j: nat) {
    exists m :: 0 <= m < j && m < |s.log| && Provenance.Shows(c, s.db, s.log[m], a)
  }

  lemma ShownStays(c: Config, s: State, t: State, a: string)
    requires Provenance.Proven(c, s, a) && Grows(s, t)
    ensures ShownBefore(c, t, a, |s.log|)
  {
    var m :| 0 <= m < |s.log| && Provenance.Shows(c, s.db, s.log[m], a);
    assert Provenance.Shows(c, t.db, t.log[m], a);
  }

  /** An authorization that is valid at some point of a run was shown before that point. */
  lemma ValidWasShown(c: Config, acts: seq<Action>, n: nat, a: string)
    requires n <= |acts| && a in Run(c, acts[..n]).db.authzs && Run(c, acts[..n]).db.authzs[a].status == Valid
    ensures ShownBefore(c, Run(c, acts), a, |Run(c, acts[..n]).log|)
  {
    Provenance.ValidHasEvidence(c, acts[..n]);
    Provenance.RunGrows(c, acts, n);
    ShownStays(c, Run(c, acts[..n]), Run(c, acts), a);
  }

  /** A usable authorization in the table of a passed gate was shown before that gate. */
  lemma UsableWasShown(c: Config, acts: seq<Action>, j: nat, a: string)
    requires j < |Run(c, acts).log| && Run(c, acts).log[j].GatePassed?
    requires a in Run(c, acts).log[j].rows && Run(c, acts).log[j].rows[a].status == Valid
    ensures ShownBefore(c, Run(c, acts), a, j)
  {
    GateReadTheTable(c, acts, j);
    var n :| 0 <= n < |acts|
      && |Run(c, acts[..n]).log| == j
      && Run(c, acts[..n]).db.authzs == Run(c, acts).log[j].rows
      && Run(c, acts[..n]).now == Run(c, acts).log[j].at;
    ValidWasShown(c, acts, n, a);
  }

  /** In every run with strict binding and without TNAuthList support: for each issued
      or reused certificate, the request behind it passed the gate at some event j, and
      for the k-th identifier of the order its own authorization - distinct from that of
      every other identifier - had been shown before j, by a validator that accepted a
      challenge of that authorization or by a shortcut that the configuration allows. */
  lemma IssuedOnlyAfterProof(c: Config, acts: seq<Action>, i: nat)
    requires c.strict && !c.tnauth
    requires i < |Run(c, acts).log| && Run(c, acts).log[i].Issued?
    ensures var s := Run(c, acts);
            var e := s.log[i];
            && e.order in s.db.orders && e.order in s.disclosed
            && var ids, names := s.db.orders[e.order].identifiers, s.disclosed[e.order];
            && ids != [] && |names| == |ids|
            && OwnAuthzs(s.db.authzs, e.order, ids, names)
            && exists j :: 0 <= j < i && s.log[j].GatePassed? && s.log[j].pid == e.pid && s.log[j].order == e.order
                 && forall k | 0 <= k < |ids| :: ShownBefore(c, s, names[k], j)
  {
    RunKeeps(c, acts);
    IssuanceIsSafe(c, acts, i);
    var s := Run(c, acts);
    var e := s.log[i];
    var ids, names := s.db.orders[e.order].identifiers, s.disclosed[e.order];
    var k, j :| 0 <= k < j < i
      && s.log[k] == ClaimWon(e.pid, e.order)
      && s.log[j].GatePassed? && s.log[j].pid == e.pid && s.log[j].order == e.order
      && Authorised(s.log[j].rows, e.order, ids, names, s.log[j].at);
    forall n | 0 <= n < |ids| ensures ShownBefore(c, s, names[n], j) {
      UsableWasShown(c, acts, j, names[n]);
    }
  }

  /** A validator accepted a challenge of this authorization, or validation was
      switched off for one. */
  ghost predicate ShownByChallenge(s: State, a: string, m: nat) {
    && m < |s.log| && s.log[m].Evidence? && s.log[m].authz == a
    && (s.log[m].proof.ValidatorPassed? || s.log[m].proof.ValidationDisabled?)
    && s.log[m].proof.challenge in s.db.challenges
    && s.db.challenges[s.log[m].proof.challenge].authz == a
  }

  lemma OnlyChallengesLeft(c: Config, s: State, a: string)
    requires !c.simulation && !c.jit && c.prevalidation == {} && Provenance.Proven(c, s, a)
    ensures exists m :: ShownByChallenge(s, a, m)
  {
    var m :| 0 <= m < |s.log| && Provenance.Shows(c, s.db, s.log[m], a);
    assert ShownByChallenge(s, a, m);
  }

  /** With no shortcut configured, only a challenge of its own makes an authorization valid. */
  lemma NoShortcutNoOtherProof(c: Config, acts: seq<Action>, a: string)
    requires !c.simulation && !c.jit && c.prevalidation == {}
    requires a in Run(c, acts).db.authzs && Run(c, acts).db.authzs[a].status == Valid
    ensures exists m :: ShownByChallenge(Run(c, acts), a, m)
  {
    Provenance.ValidHasEvidence(c, acts);
    OnlyChallengesLeft(c, Run(c, acts), a);
  }
}
