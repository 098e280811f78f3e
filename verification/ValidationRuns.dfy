/** The validation of a challenge by the sequential server as a run of the machine. */
module ValidationRuns {
  import opened AcmeTables
  import opened OrderMachine
  import opened Reaching
  import V = ValidationRetry

  lemma ValidationBegins(c: Config, R: iset<State>, t: State, pid: nat, account: string, ch: string, lost: bool)
    returns (u: State)
    requires Closed(c, R) && t in R && Fresh(t, pid) && MayStart(c, t, Validate(account, ch, VBegin))
    ensures u in R && u.db == if lost then t.db else SetChallenge(t.db, ch, Processing)
    ensures OnlyMoved(t, u, pid, Validate(account, ch, if lost then VMark(Invalid, true) else VRun))
  {
    u := Begin(c, R, t, pid, Validate(account, ch, VBegin));
    u := GoValidate(c, R, u, pid, Validate(account, ch, VBegin), CALM.(lost := lost));
  }

  function PcOf(r: V.Ruling): ValidatePc {
    match r
    case LeaveOpen => VEnd
    case Throw => VMark(Invalid, true)
    case Settle(status) => VMark(status, false)
  }

  lemma ValidatorRules(c: Config, R: iset<State>, t: State, pid: nat, p: Proc, kind: string, out: V.Outside)
    returns (u: State)
    requires Closed(c, R) && t in R && Alive(t, pid, p) && p.Validate? && p.vpc == VRun
    requires p.challenge in t.db.challenges
    ensures u in R && u.db == t.db && OnlyMoved(t, u, pid, p.(vpc := PcOf(V.Rule(kind, out))))
  {
    var verdict := match V.Rule(kind, out)
                   case LeaveOpen => Undecided
                   case Throw => Raised
                   case Settle(status) => if status == Valid then Passed else Failed;
    u := GoValidate(c, R, t, pid, p, CALM.(verdict := verdict, disabled := out.disabled));
  }

  lemma ChallengeIsMarked(c: Config, R: iset<State>, t: State, pid: nat, p: Proc, lost: bool) returns (u: State)
    requires Closed(c, R) && t in R && Alive(t, pid, p) && p.Validate? && p.vpc.VMark?
    ensures u in R && u.db == if lost then t.db else SetChallenge(t.db, p.challenge, p.vpc.to)
    ensures OnlyMoved(t, u, pid, p.(vpc := if lost then AfterLoss(p.vpc.last) else VAuthz(p.vpc.to, p.vpc.last)))
  {
    u := GoValidate(c, R, t, pid, p, CALM.(lost := lost));
  }

  lemma AuthorizationIsMarked(c: Config, R: iset<State>, t: State, pid: nat, p: Proc, lost: bool) returns (u: State)
    requires Closed(c, R) && t in R && Alive(t, pid, p) && p.Validate? && p.vpc.VAuthz?
    requires p.challenge in t.db.challenges
    ensures u in R && u.db == if lost then t.db else SetAuthz(t.db, t.db.challenges[p.challenge].authz, p.vpc.to)
    ensures OnlyMoved(t, u, pid, p.(vpc := if lost then AfterLoss(p.vpc.last) else VEnd))
  {
    u := GoValidate(c, R, t, pid, p, CALM.(lost := lost));
  }

  /** A transition of challenge and authorization, up to the first write that fails. */
  lemma TransitionRuns(c: Config, R: iset<State>, t: State, pid: nat, p: Proc, fails: nat -> bool, n: nat)
    returns (u: State)
    requires Closed(c, R) && t in R && Alive(t, pid, p) && p.Validate? && p.vpc.VMark?
    requires p.challenge in t.db.challenges
    ensures u in R && u.db == V.Moved(t.db, p.challenge, p.vpc.to, fails, n)
    ensures OnlyMoved(t, u, pid, p.(vpc := if V.MoveFails(fails, n) then AfterLoss(p.vpc.last) else VEnd))
  {
    u := ChallengeIsMarked(c, R, t, pid, p, fails(n));
    if !fails(n) {
      u := AuthorizationIsMarked(c, R, u, pid, p.(vpc := VAuthz(p.vpc.to, p.vpc.last)), fails(n + 1));
    }
  }

  /** From the ruling to the end of the thread. */
  lemma RulingRuns(c: Config, R: iset<State>, t: State, pid: nat, p: Proc, r: V.Ruling, fails: nat -> bool, n: nat)
    returns (u: State)
    requires Closed(c, R) && t in R && Alive(t, pid, p) && p.Validate? && p.vpc == PcOf(r)
    requires p.challenge in t.db.challenges
    ensures u in R && OnlyMoved(t, u, pid, p.(vpc := VEnd))
    ensures u.db == V.AfterRuling(t.db, p.challenge, r, fails, n)
  {
    if r.LeaveOpen? {
      u := t;
    } else {
      u := TransitionRuns(c, R, t, pid, p, fails, n);
      if r.Settle? && V.MoveFails(fails, n) {
        u := TransitionRuns(c, R, u, pid, p.(vpc := VMark(Invalid, true)), fails, V.AfterMove(fails, n));
      }
    }
  }

  /** The whole validation, whatever is answered and whichever writes fail. */
  lemma ValidationGoesThrough(c: Config, R: iset<State>, t: State, pid: nat, account: string, ch: string,
                              out: V.Outside, fails: nat -> bool, n: nat) returns (u: State)
    requires Closed(c, R) && t in R && Fresh(t, pid) && MayStart(c, t, Validate(account, ch, VBegin))
    ensures u in R && OnlyMoved(t, u, pid, Validate(account, ch, VEnd))
    ensures u.db == V.AfterValidation(t.db, ch, out, fails, n)
  {
    var p, kind := Validate(account, ch, VRun), t.db.challenges[ch].kind;
    u := ValidationBegins(c, R, t, pid, account, ch, fails(n));
    if fails(n) {
      u := TransitionRuns(c, R, u, pid, p.(vpc := VMark(Invalid, true)), fails, n + 1);
    } else {
      u := ValidatorRules(c, R, u, pid, p, kind, out);
      u := RulingRuns(c, R, u, pid, p.(vpc := PcOf(V.Rule(kind, out))), V.Rule(kind, out), fails, n + 1);
    }
  }

  /** From every state in which a validation may start: what the sequential validation does
      to the tables - for every validator and source check, and whichever of its writes
      fail - is done by the validation thread alone. */
  lemma ValidationIsARun(c: Config, s: State, pid: nat, account: string, ch: string, out: V.Outside,
                         fails: nat -> bool, n: nat) returns (u: State)
    requires Fresh(s, pid) && MayStart(c, s, Validate(account, ch, VBegin))
    ensures Reaches(c, s, u) && OnlyMoved(s, u, pid, Validate(account, ch, VEnd))
    ensures u.db == V.AfterValidation(s.db, ch, out, fails, n)
  {
    ReachableIsClosed(c, s);
    u := ValidationGoesThrough(c, Reachable(c, s), s, pid, account, ch, out, fails, n);
  }
}
