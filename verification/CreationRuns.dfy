/** The creation of an order by the sequential server is one of the interleaved runs. */
module CreationRuns {
  import opened AcmeTables
  import opened OrderMachine
  import opened Reaching
  import C = OrderCreation

  lemma RowIsInserted(c: Config, R: iset<State>, t: State, pid: nat, p: Proc, a: string, until: Option<int>)
    returns (u: State)
    requires Closed(c, R) && t in R && Alive(t, pid, p) && p.Create? && p.cpc == CAuthzs
    requires |p.names| < |p.identifiers| && a !in t.db.authzs
    ensures var row := AuthzRow(p.order, p.identifiers[|p.names|], Pending, until, "");
            u in R && u.db == t.db.(authzs := t.db.authzs[a := row])
    ensures OnlyMoved(t, u, pid, p.(names := p.names + [a], cpc := if c.simulation then CSimulate(a) else CAuthzs))
  {
    u := GoCreate(c, R, t, pid, p,
                  CALM.(name := a, nullExpiry := until.None?, until := if until.Some? then until.value else 0));
  }

  /** In simulation mode the new row is marked at once, or the creation ends there. */
  lemma RowIsMarked(c: Config, R: iset<State>, t: State, pid: nat, p: Proc, a: string, lost: bool) returns (u: State)
    requires Closed(c, R) && t in R && Alive(t, pid, p) && p.Create? && p.cpc == CSimulate(a)
    ensures u in R && u.db == if lost then t.db else SetAuthz(t.db, a, Valid)
    ensures OnlyMoved(t, u, pid, p.(cpc := if lost then CEnd else CAuthzs))
  {
    u := GoCreate(c, R, t, pid, p, CALM.(lost := lost));
  }

  /** One identifier, at which the database does not refuse the insert. */
  lemma OneIsServed(c: Config, R: iset<State>, t: State, pid: nat, p: Proc, out: C.Outside) returns (u: State)
    requires Closed(c, R) && t in R && Alive(t, pid, p) && p.Create? && p.cpc == CAuthzs
    requires c.simulation == out.simulation && |p.names| < |p.identifiers|
    requires out.names(|p.names|) !in t.db.authzs && out.loss(|p.names|) != C.InsertLost
    ensures var k := |p.names|;
            var a, stops := out.names(k), out.simulation && out.loss(k) == C.MarkLost;
            && u in R
            && u.db == t.db.(authzs := t.db.authzs[a := C.NewRow(p.order, p.identifiers[k], out, out.loss(k))])
            && OnlyMoved(t, u, pid, p.(names := p.names + [a], cpc := if stops then CEnd else CAuthzs))
  {
    var k := |p.names|;
    var a := out.names(k);
    u := RowIsInserted(c, R, t, pid, p, a, out.authzUntil);
    if c.simulation {
      u := RowIsMarked(c, R, u, pid, p.(names := p.names + [a], cpc := CSimulate(a)), a, out.loss(k) == C.MarkLost);
    }
  }

  predicate Unfailing(out: C.Outside, n: nat) {
    forall i | 0 <= i < n :: !(out.loss(i) == C.InsertLost || (out.simulation && out.loss(i) == C.MarkLost))
  }

  /** From the k-th identifier on. */
  lemma {:induction false} RestIsServed(c: Config, R: iset<State>, t: State, pid: nat, p: Proc, out: C.Outside)
    returns (u: State)
    requires Closed(c, R) && t in R && Alive(t, pid, p) && p.Create? && p.cpc == CAuthzs
    requires c.simulation == out.simulation && |p.names| <= |p.identifiers|
    requires forall i, j | 0 <= i < j < |p.identifiers| :: out.names(i) != out.names(j)
    requires forall i | |p.names| <= i < |p.identifiers| :: out.names(i) !in t.db.authzs
    requires p.names == C.Named(out.names, |p.names|)
    ensures u in R && u.now == t.now && u.dead == t.dead && u.disclosed == t.disclosed
    ensures u.db == t.db.(authzs := C.CreatedFrom(t.db.authzs, p.order, p.identifiers, out, |p.names|))
    ensures Unfailing(out, |p.identifiers|) ==>
              OnlyMoved(t, u, pid, p.(names := C.Named(out.names, |p.identifiers|)))
    decreases |p.identifiers| - |p.names|
  {
    var k := |p.names|;
    if k == |p.identifiers| || out.loss(k) == C.InsertLost {
      u := t;
    } else {
      u := OneIsServed(c, R, t, pid, p, out);
      if !(out.simulation && out.loss(k) == C.MarkLost) {
        var q := p.(names := p.names + [out.names(k)]);
        assert q.names == C.Named(out.names, k + 1);
        u := RestIsServed(c, R, u, pid, q, out);
      }
    }
  }

  lemma AnswerIsGiven(c: Config, R: iset<State>, t: State, pid: nat, p: Proc) returns (u: State)
    requires Closed(c, R) && t in R && Alive(t, pid, p) && p.Create? && p.cpc == CAuthzs
    requires |p.names| == |p.identifiers| && p.order !in t.disclosed
    ensures u in R && u.db == t.db && u.disclosed == t.disclosed[p.order := p.names]
  {
    u := Step(c, t, Advance(pid, CALM));
    assert u == Take(t, pid, CreateTurn(c, t, p, CALM));
  }

  lemma OrderRowIsInserted(c: Config, R: iset<State>, s: State, pid: nat, account: string, ids: seq<Identifier>,
                           profile: string, out: C.Outside) returns (u: State)
    requires Closed(c, R) && s in R && Fresh(s, pid) && ids != [] && out.orderName !in s.db.orders
    ensures var status := if out.policy.Rejected? then Invalid else Pending;
            && u in R
            && u.db == s.db.(orders := s.db.orders[out.orderName :=
                               OrderRow(account, ids, profile, status, out.until)])
            && OnlyMoved(s, u, pid, Create(out.orderName, account, ids, profile, [],
                                           if out.policy.Rejected? then CEnd else CAuthzs))
  {
    var p := Create(out.orderName, account, ids, profile, [], CBegin);
    u := Begin(c, R, s, pid, p);
    u := GoCreate(c, R, u, pid, p, CALM.(accepted := !out.policy.Rejected?, until := out.until));
  }

  /** Whatever the policy says and whichever insert fails, what CreateOrder does to the tables is
      done by the creating process alone; and where nothing fails, the order is answered with the
      names of its authorizations. */
  lemma CreationIsARun(c: Config, s: State, pid: nat, account: string, ids: seq<Identifier>, profile: string,
                       out: C.Outside) returns (u: State)
    requires Fresh(s, pid) && ids != [] && c.simulation == out.simulation
    requires out.orderName !in s.db.orders && out.orderName !in s.disclosed
    requires C.FreshNames(s.db, out.names, |ids|)
    ensures Reaches(c, s, u) && u.db == C.AfterCreation(s.db, account, Some(ids), profile, out)
    ensures out.policy.Accepted? && !out.orderLost && Unfailing(out, |ids|) ==>
              u.disclosed == s.disclosed[out.orderName := C.Named(out.names, |ids|)]
  {
    ReachableIsClosed(c, s);
    u := s;
    if !out.orderLost {
      u := OrderRowIsInserted(c, Reachable(c, s), s, pid, account, ids, profile, out);
      if out.policy.Accepted? {
        var p := Create(out.orderName, account, ids, profile, [], CAuthzs);
        assert [] == C.Named(out.names, 0);
        u := RestIsServed(c, Reachable(c, s), u, pid, p, out);
        if Unfailing(out, |ids|) {
          u := AnswerIsGiven(c, Reachable(c, s), u, pid, p.(names := C.Named(out.names, |ids|)));
        }
      }
    }
  }
}
