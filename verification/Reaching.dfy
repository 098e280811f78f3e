/** Continuing a run turn by turn. */
module Reaching {
  import opened AcmeTables
  import opened OrderMachine
  import opened ClaimBound

  function Steps(c: Config, s: State, acts: seq<Action>): State {
    if acts == [] then s else Step(c, Steps(c, s, acts[..|acts| - 1]), acts[|acts| - 1])
  }

  /** Some actions lead from s to t, and none of them is a promotion in several steps. */
  ghost predicate Reaches(c: Config, s: State, t: State) {
    exists acts :: Orderly(acts) && Steps(c, s, acts) == t
  }

  /** Some actions of any kind lead from s to t. */
  ghost predicate Continues(c: Config, s: State, t: State) {
    exists acts :: Steps(c, s, acts) == t
  }

  lemma {:induction false} StepsAppend(c: Config, s: State, xs: seq<Action>, ys: seq<Action>)
    ensures Steps(c, s, xs + ys) == Steps(c, Steps(c, s, xs), ys)
  {
    if ys == [] {
      assert xs + ys == xs;
    } else {
      assert (xs + ys)[..|xs + ys| - 1] == xs + ys[..|ys| - 1];
      StepsAppend(c, s, xs, ys[..|ys| - 1]);
    }
  }

  lemma {:induction false} RunIsSteps(c: Config, acts: seq<Action>)
    ensures Run(c, acts) == Steps(c, Initial(), acts)
  {
    if acts != [] {
      RunIsSteps(c, acts[..|acts| - 1]);
    }
  }

  lemma ReachesTransitive(c: Config, s: State, t: State, u: State)
    requires Reaches(c, s, t) && Reaches(c, t, u)
    ensures Reaches(c, s, u)
  {
    var xs :| Orderly(xs) && Steps(c, s, xs) == t;
    var ys :| Orderly(ys) && Steps(c, t, ys) == u;
    StepsAppend(c, s, xs, ys);
    assert Orderly(xs + ys);
  }

  lemma ContinuesTransitive(c: Config, s: State, t: State, u: State)
    requires Continues(c, s, t) && Continues(c, t, u)
    ensures Continues(c, s, u)
  {
    var xs :| Steps(c, s, xs) == t;
    var ys :| Steps(c, t, ys) == u;
    StepsAppend(c, s, xs, ys);
  }

  lemma ReachesNext(c: Config, s: State, t: State, a: Action)
    requires Reaches(c, s, t) && (a.Start? ==> !a.proc.Promote?)
    ensures Reaches(c, s, Step(c, t, a))
  {
    var xs :| Orderly(xs) && Steps(c, s, xs) == t;
    var ys := xs + [a];
    assert ys[..|xs|] == xs;
    assert Orderly(ys) && Steps(c, s, ys) == Step(c, t, a);
  }

  lemma ReachesItself(c: Config, s: State)
    ensures Reaches(c, s, s)
  {
    assert Orderly([]) && Steps(c, s, []) == s;
  }

  // ---------- sets of states that no turn leaves ----------

  /** Proofs about continuations speak of a set of states that is closed under the actions
      of orderly runs; what is shown of all such sets holds of the reachable states. */
  ghost predicate Closed(c: Config, R: iset<State>) {
    forall t, a: Action | t in R && (a.Start? ==> !a.proc.Promote?) :: Step(c, t, a) in R
  }

  ghost function Reachable(c: Config, s: State): iset<State> {
    iset t | Reaches(c, s, t)
  }

  lemma ReachableIsClosed(c: Config, s: State)
    ensures Closed(c, Reachable(c, s)) && s in Reachable(c, s)
  {
    forall t, a: Action | t in Reachable(c, s) && (a.Start? ==> !a.proc.Promote?)
      ensures Step(c, t, a) in Reachable(c, s)
    {
      ReachesNext(c, s, t, a);
    }
    ReachesItself(c, s);
  }

  /** A world in which nothing goes wrong. */
  const CALM :=
    World(false, false, true, false, false, true, "", 0, 0, 0, false, None, Passed, [], CaAnswer("", "", "", "", false))

  predicate Alive(s: State, pid: nat, p: Proc) {
    pid in s.procs && pid !in s.dead && s.procs[pid] == p
  }

  predicate Fresh(s: State, pid: nat) {
    pid !in s.procs && pid !in s.dead
  }

  /** t differs from s in the tables, the history and one process. */
  predicate OnlyMoved(s: State, t: State, pid: nat, p: Proc) {
    t.now == s.now && t.dead == s.dead && t.disclosed == s.disclosed && t.procs == s.procs[pid := p] && s.log <= t.log
  }

  /** t is s after one turn that goes on. */
  predicate Moved(s: State, t: State, pid: nat, turn: Turn)
    requires turn.Turn?
  {
    && OnlyMoved(s, t, pid, turn.proc) && t.db == Apply(s.db, turn.write)
    && t.log == if turn.note.Some? then s.log + [turn.note.value] else s.log
  }

  lemma Go(c: Config, R: iset<State>, t: State, pid: nat, p: Proc, w: World, turn: Turn) returns (u: State)
    requires Closed(c, R) && t in R && Alive(t, pid, p) && TurnOf(c, t, pid, p, w) == turn && turn.Turn?
    ensures u in R && Moved(t, u, pid, turn)
  {
    u := Step(c, t, Advance(pid, w));
    assert u == Take(t, pid, turn);
  }

  // ---------- one turn of each kind of process ----------

  lemma GoAdmit(c: Config, R: iset<State>, t: State, pid: nat, p: Proc, w: World) returns (u: State)
    requires Closed(c, R) && t in R && Alive(t, pid, p) && p.Finalize? && AdmitTurn(c, t, pid, p, w).Turn?
    ensures u in R && Moved(t, u, pid, AdmitTurn(c, t, pid, p, w))
  {
    u := Go(c, R, t, pid, p, w, AdmitTurn(c, t, pid, p, w));
  }

  lemma GoRedeem(c: Config, R: iset<State>, t: State, pid: nat, p: Proc, w: World) returns (u: State)
    requires Closed(c, R) && t in R && Alive(t, pid, p) && p.Finalize? && RedeemTurn(c, t, pid, p, w).Turn?
    ensures u in R && Moved(t, u, pid, RedeemTurn(c, t, pid, p, w))
  {
    u := Go(c, R, t, pid, p, w, RedeemTurn(c, t, pid, p, w));
  }

  lemma GoEnroll(c: Config, R: iset<State>, t: State, pid: nat, p: Proc, w: World) returns (u: State)
    requires Closed(c, R) && t in R && Alive(t, pid, p) && p.Enroll? && EnrollTurn(c, t, p, w).Turn?
    ensures u in R && Moved(t, u, pid, EnrollTurn(c, t, p, w))
  {
    u := Go(c, R, t, pid, p, w, EnrollTurn(c, t, p, w));
  }

  lemma GoPromote(c: Config, R: iset<State>, t: State, pid: nat, p: Proc, w: World) returns (u: State)
    requires Closed(c, R) && t in R && Alive(t, pid, p) && p.Promote? && PromoteTurn(t, p, w).Turn?
    ensures u in R && Moved(t, u, pid, PromoteTurn(t, p, w))
  {
    u := Go(c, R, t, pid, p, w, PromoteTurn(t, p, w));
  }

  lemma GoCreate(c: Config, R: iset<State>, t: State, pid: nat, p: Proc, w: World) returns (u: State)
    requires Closed(c, R) && t in R && Alive(t, pid, p) && p.Create? && CreateTurn(c, t, p, w).Turn?
    ensures u in R && Moved(t, u, pid, CreateTurn(c, t, p, w))
  {
    u := Go(c, R, t, pid, p, w, CreateTurn(c, t, p, w));
  }

  lemma GoFetch(c: Config, R: iset<State>, t: State, pid: nat, p: Proc, w: World) returns (u: State)
    requires Closed(c, R) && t in R && Alive(t, pid, p) && p.Fetch? && FetchTurn(c, t, p, w).Turn?
    ensures u in R && Moved(t, u, pid, FetchTurn(c, t, p, w))
  {
    u := Go(c, R, t, pid, p, w, FetchTurn(c, t, p, w));
  }

  lemma GoValidate(c: Config, R: iset<State>, t: State, pid: nat, p: Proc, w: World) returns (u: State)
    requires Closed(c, R) && t in R && Alive(t, pid, p) && p.Validate? && ValidateTurn(t, p, w).Turn?
    ensures u in R && Moved(t, u, pid, ValidateTurn(t, p, w))
  {
    u := Go(c, R, t, pid, p, w, ValidateTurn(t, p, w));
  }

  lemma GoPoll(c: Config, R: iset<State>, t: State, pid: nat, p: Proc, w: World) returns (u: State)
    requires Closed(c, R) && t in R && Alive(t, pid, p) && p.Poll? && PollTurn(t, p, w).Turn?
    ensures u in R && Moved(t, u, pid, PollTurn(t, p, w))
  {
    u := Go(c, R, t, pid, p, w, PollTurn(t, p, w));
  }

  lemma GoTrigger(c: Config, R: iset<State>, t: State, pid: nat, p: Proc, w: World) returns (u: State)
    requires Closed(c, R) && t in R && Alive(t, pid, p) && p.Trigger? && TriggerTurn(t, p, w).Turn?
    ensures u in R && Moved(t, u, pid, TriggerTurn(t, p, w))
  {
    u := Go(c, R, t, pid, p, w, TriggerTurn(t, p, w));
  }

  lemma GoSweepOrders(c: Config, R: iset<State>, t: State, pid: nat, p: Proc, w: World) returns (u: State)
    requires Closed(c, R) && t in R && Alive(t, pid, p) && p.SweepOrders? && SweepOrdersTurn(p, w).Turn?
    ensures u in R && Moved(t, u, pid, SweepOrdersTurn(p, w))
  {
    u := Go(c, R, t, pid, p, w, SweepOrdersTurn(p, w));
  }

  lemma GoSweepAuthzs(c: Config, R: iset<State>, t: State, pid: nat, p: Proc, w: World) returns (u: State)
    requires Closed(c, R) && t in R && Alive(t, pid, p) && p.SweepAuthzs? && SweepAuthzsTurn(p, w).Turn?
    ensures u in R && Moved(t, u, pid, SweepAuthzsTurn(p, w))
  {
    u := Go(c, R, t, pid, p, w, SweepAuthzsTurn(p, w));
  }

  // ---------- starting processes ----------

  lemma Begin(c: Config, R: iset<State>, t: State, pid: nat, p: Proc) returns (u: State)
    requires Closed(c, R) && t in R && pid !in t.procs && MayStart(c, t, p) && !p.Promote?
    ensures u in R && u == t.(procs := t.procs[pid := p])
  {
    u := Step(c, t, Start(pid, p));
  }

  /** Starting a promotion, which no orderly run does. */
  lemma BeginPromotion(c: Config, t: State, pid: nat, o: string) returns (u: State)
    requires pid !in t.procs && o in t.disclosed
    ensures Continues(c, t, u) && u == t.(procs := t.procs[pid := Promote(o, PRead)])
  {
    var a := Start(pid, Promote(o, PRead));
    u := Step(c, t, a);
    assert [a][..0] == [];
    assert Steps(c, t, [a]) == Step(c, Steps(c, t, []), a);
  }

  lemma PromotesAtOnce(c: Config, R: iset<State>, t: State, o: string) returns (u: State)
    requires Closed(c, R) && t in R && o in t.disclosed && HasStatus(t.db, o, Pending) && AllValid(t.db.authzs, o)
    ensures u in R && u == Promoted(t, o)
  {
    u := Step(c, t, PromoteAtOnce(o));
  }
}
