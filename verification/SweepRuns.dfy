/** The expiry sweeps of the sequential server as runs of the machine. */
module SweepRuns {
  import opened AcmeTables
  import opened OrderMachine
  import opened Reaching
  import opened Sweeps

  lemma {:induction false} Listing(names: set<string>) returns (list: seq<string>)
    ensures forall x :: x in list <==> x in names
    decreases |names|
  {
    if names == {} {
      list := [];
    } else {
      var x :| x in names;
      list := Listing(names - {x});
      list := list + [x];
    }
  }

  // ---------- orders ----------

  /** The table after the orders of a list were made invalid. */
  function OrdersMarked(orders: map<string, OrderRow>, list: seq<string>): map<string, OrderRow> {
    map o | o in orders :: if o in list then orders[o].(status := Invalid) else orders[o]
  }

  lemma OneMoreOrderMarked(db: Tables, list: seq<string>)
    requires list != []
    ensures OrdersMarked(SetOrder(db, list[0], Invalid).orders, list[1..]) == OrdersMarked(db.orders, list)
  {
    var once := SetOrder(db, list[0], Invalid).orders;
    assert list == [list[0]] + list[1..];
    forall o | o in db.orders
      ensures OrdersMarked(once, list[1..])[o] == OrdersMarked(db.orders, list)[o]
    {
    }
  }

  lemma SweepsOneOrder(c: Config, R: iset<State>, t: State, pid: nat, list: seq<string>) returns (u: State)
    requires Closed(c, R) && t in R && Alive(t, pid, SweepOrders(list)) && list != []
    ensures u in R && u.db == SetOrder(t.db, list[0], Invalid) && OnlyMoved(t, u, pid, SweepOrders(list[1..]))
  {
    u := GoSweepOrders(c, R, t, pid, SweepOrders(list), CALM);
  }

  lemma {:induction false} OrdersAreMarked(c: Config, R: iset<State>, t: State, pid: nat, list: seq<string>)
    returns (u: State)
    requires Closed(c, R) && t in R && Alive(t, pid, SweepOrders(list))
    ensures u in R && u.db == t.db.(orders := OrdersMarked(t.db.orders, list))
    ensures OnlyMoved(t, u, pid, SweepOrders([]))
    decreases |list|
  {
    if list == [] {
      u := t;
      assert OrdersMarked(t.db.orders, []) == t.db.orders;
    } else {
      u := SweepsOneOrder(c, R, t, pid, list);
      u := OrdersAreMarked(c, R, u, pid, list[1..]);
      OneMoreOrderMarked(t.db, list);
    }
  }

  /** A sweep of the orders, undisturbed, leaves the table of the sequential sweep. */
  lemma OrderSweepRuns(c: Config, R: iset<State>, t: State, pid: nat) returns (u: State)
    requires Closed(c, R) && t in R && Fresh(t, pid)
    ensures u in R && u.db == t.db.(orders := SweptOrders(t.db.orders, t.now))
    ensures OnlyMoved(t, u, pid, SweepOrders([]))
  {
    var list := Listing(OrderReport(t.db.orders, t.now));
    u := Begin(c, R, t, pid, SweepOrders(list));
    u := OrdersAreMarked(c, R, u, pid, list);
    assert OrdersMarked(t.db.orders, list) == SweptOrders(t.db.orders, t.now);
  }

  lemma OrderSweepIsARun(c: Config, s: State, pid: nat) returns (u: State)
    requires Fresh(s, pid)
    ensures Reaches(c, s, u) && u.db == s.db.(orders := SweptOrders(s.db.orders, s.now))
  {
    ReachableIsClosed(c, s);
    u := OrderSweepRuns(c, Reachable(c, s), s, pid);
  }

  // ---------- authorizations ----------

  function AuthzsMarked(authzs: map<string, AuthzRow>, list: seq<string>): map<string, AuthzRow> {
    map a | a in authzs :: if a in list then authzs[a].(status := Expired) else authzs[a]
  }

  lemma OneMoreAuthzMarked(db: Tables, list: seq<string>)
    requires list != []
    ensures AuthzsMarked(SetAuthz(db, list[0], Expired).authzs, list[1..]) == AuthzsMarked(db.authzs, list)
  {
    var once := SetAuthz(db, list[0], Expired).authzs;
    assert list == [list[0]] + list[1..];
    forall a | a in db.authzs
      ensures AuthzsMarked(once, list[1..])[a] == AuthzsMarked(db.authzs, list)[a]
    {
    }
  }

  lemma SweepsOneAuthz(c: Config, R: iset<State>, t: State, pid: nat, list: seq<string>) returns (u: State)
    requires Closed(c, R) && t in R && Alive(t, pid, SweepAuthzs(list)) && list != []
    ensures u in R && u.db == SetAuthz(t.db, list[0], Expired) && OnlyMoved(t, u, pid, SweepAuthzs(list[1..]))
  {
    u := GoSweepAuthzs(c, R, t, pid, SweepAuthzs(list), CALM);
  }

  lemma {:induction false} AuthzsAreMarked(c: Config, R: iset<State>, t: State, pid: nat, list: seq<string>)
    returns (u: State)
    requires Closed(c, R) && t in R && Alive(t, pid, SweepAuthzs(list))
    ensures u in R && u.db == t.db.(authzs := AuthzsMarked(t.db.authzs, list))
    ensures OnlyMoved(t, u, pid, SweepAuthzs([]))
    decreases |list|
  {
    if list == [] {
      u := t;
      assert AuthzsMarked(t.db.authzs, []) == t.db.authzs;
    } else {
      u := SweepsOneAuthz(c, R, t, pid, list);
      u := AuthzsAreMarked(c, R, u, pid, list[1..]);
      OneMoreAuthzMarked(t.db, list);
    }
  }

  /** So does a sweep of the authorizations. */
  lemma AuthzSweepIsARun(c: Config, s: State, pid: nat) returns (u: State)
    requires Fresh(s, pid)
    ensures Reaches(c, s, u) && u.db == s.db.(authzs := SweptAuthzs(s.db.authzs, s.now))
  {
    ReachableIsClosed(c, s);
    var R := Reachable(c, s);
    var list := Listing(AuthzReport(s.db.authzs, s.now));
    u := Begin(c, R, s, pid, SweepAuthzs(list));
    u := AuthzsAreMarked(c, R, u, pid, list);
    assert AuthzsMarked(s.db.authzs, list) == SweptAuthzs(s.db.authzs, s.now);
  }
}
