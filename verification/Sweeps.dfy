/** The expiry sweeps over the order and the authorization table. */
module Sweeps {
  import opened AcmeTables

  // ---------- what a sweep does ----------

  function SweptAuthzs(authzs: map<string, AuthzRow>, t: int): map<string, AuthzRow> {
    map a | a in authzs :: if AuthzExpiredAt(authzs[a], t) then authzs[a].(status := Expired) else authzs[a]
  }

  function SweptOrders(orders: map<string, OrderRow>, t: int): map<string, OrderRow> {
    map o | o in orders :: if OrderExpiredAt(orders[o], t) then orders[o].(status := Invalid) else orders[o]
  }

  function AuthzReport(authzs: map<string, AuthzRow>, t: int): set<string> {
    set a | a in authzs && AuthzExpiredAt(authzs[a], t)
  }

  function OrderReport(orders: map<string, OrderRow>, t: int): set<string> {
    set o | o in orders && OrderExpiredAt(orders[o], t)
  }

  /** How far a sweep over the rows found is: those of `done` are handled. */
  ghost predicate SweptSoFar(before: map<string, AuthzRow>, authzs: map<string, AuthzRow>, done: seq<string>,
                             report: seq<string>, t: int) {
    && authzs.Keys == before.Keys
    && (forall a :: a in report <==> a in done && a in before && AuthzExpiredAt(before[a], t))
    && (forall a | a in authzs :: authzs[a] == if a in report then before[a].(status := Expired) else before[a])
    && (forall i, j | 0 <= i < j < |report| :: report[i] != report[j])
  }

  lemma OneMoreSwept(before: map<string, AuthzRow>, authzs: map<string, AuthzRow>, done: seq<string>,
                     report: seq<string>, t: int, a: string)
    requires SweptSoFar(before, authzs, done, report, t) && a !in done && a in before
    ensures authzs[a] == before[a]
    ensures !AuthzExpiredAt(before[a], t) ==> SweptSoFar(before, authzs, done + [a], report, t)
    ensures AuthzExpiredAt(before[a], t) ==>
              SweptSoFar(before, authzs[a := before[a].(status := Expired)], done + [a], report + [a], t)
  {
  }

  // ---------- the sweeps as the code runs them ----------

  class Sweeper {
    var authzs: map<string, AuthzRow>
    var orders: map<string, OrderRow>

    constructor (authzs: map<string, AuthzRow>, orders: map<string, OrderRow>)
      ensures this.authzs == authzs && this.orders == orders
    {
      this.authzs, this.orders := authzs, orders;
    }

    /** The store's search: every row that is not expired and meets the comparison,
        each once. Rows whose expiry is 0 meet it, too. */
    method SearchExpiredAuthorizations(t: int) returns (names: seq<string>)
      ensures forall a :: a in names <==>
                a in authzs && authzs[a].status != Expired && authzs[a].expires.Some? && authzs[a].expires.value <= t
      ensures forall i, j | 0 <= i < j < |names| :: names[i] != names[j]
    {
      names := [];
      var todo := authzs.Keys;
      while todo != {}
        invariant todo <= authzs.Keys
        invariant forall a | a in names :: a !in todo
        invariant forall a | a !in todo ::
          a in names <==>
            a in authzs && authzs[a].status != Expired && authzs[a].expires.Some? && authzs[a].expires.value <= t
        invariant forall i, j | 0 <= i < j < |names| :: names[i] != names[j]
        decreases |todo|
      {
        var a :| a in todo;
        if authzs[a].status != Expired && authzs[a].expires.Some? && authzs[a].expires.value <= t {
          names := names + [a];
        }
        todo := todo - {a};
      }
    }

    method ExpireInvalidAuthorizations(t: int) returns (report: seq<string>)
      modifies this
      ensures authzs == SweptAuthzs(old(authzs), t) && orders == old(orders)
      ensures authzs.Keys == old(authzs).Keys
      ensures forall a | a in old(authzs) ::
                var row := old(authzs)[a];
                authzs[a] == if row.expires.Some? && row.expires.value != 0 && row.expires.value <= t
                             then row.(status := Expired) else row
      ensures forall a | a in old(authzs) ::
                a in report <==> authzs[a].status == Expired && old(authzs)[a].status != Expired
      ensures forall a :: a in report <==> a in AuthzReport(old(authzs), t)
      ensures forall i, j | 0 <= i < j < |report| :: report[i] != report[j]
    {
      var found := SearchExpiredAuthorizations(t);
      report := [];
      var i := 0;
      while i < |found|
        invariant i <= |found| && orders == old(orders)
        invariant SweptSoFar(old(authzs), authzs, found[..i], report, t)
      {
        var a := found[i];
        assert a in found;
        OneMoreSwept(old(authzs), authzs, found[..i], report, t, a);
        assert found[..i + 1] == found[..i] + [a];
        // the row as it was found: already expired rows and expiry 0 are skipped
        if authzs[a].status != Expired && authzs[a].expires != Some(0) {
          report := report + [a];
          authzs := authzs[a := authzs[a].(status := Expired)];
        }
        i := i + 1;
      }
      assert found[..|found|] == found;
    }

    /** The store's search leaves out rows whose status is invalid already. */
    method SearchExpiredOrders(t: int) returns (names: seq<string>)
      ensures forall o :: o in names <==> o in orders && OrderExpiredAt(orders[o], t)
      ensures forall i, j | 0 <= i < j < |names| :: names[i] != names[j]
    {
      names := [];
      var todo := orders.Keys;
      while todo != {}
        invariant todo <= orders.Keys
        invariant forall o | o in names :: o !in todo
        invariant forall o | o !in todo :: o in names <==> o in orders && OrderExpiredAt(orders[o], t)
        invariant forall i, j | 0 <= i < j < |names| :: names[i] != names[j]
        decreases |todo|
      {
        var o :| o in todo;
        if OrderExpiredAt(orders[o], t) {
          names := names + [o];
        }
        todo := todo - {o};
      }
    }

    method InvalidateExpiredOrders(timestamp: int, now: int) returns (report: seq<string>)
      modifies this
      ensures var t := if timestamp == 0 then now else timestamp;
              && orders == SweptOrders(old(orders), t) && authzs == old(authzs)
              && (forall o :: o in report <==> o in OrderReport(old(orders), t))
              && orders.Keys == old(orders).Keys
              && (forall o | o in old(orders) ::
                    orders[o] == if old(orders)[o].expires <= t then old(orders)[o].(status := Invalid)
                                 else old(orders)[o])
              && (forall o | o in old(orders) ::
                    o in report <==> old(orders)[o].expires <= t && old(orders)[o].status != Invalid)
      ensures forall i, j | 0 <= i < j < |report| :: report[i] != report[j]
    {
      var t := if timestamp == 0 then now else timestamp;
      var found := SearchExpiredOrders(t);
      report := [];
      var i := 0;
      while i < |found|
        invariant i <= |found| && authzs == old(authzs)
        invariant orders.Keys == old(orders).Keys
        invariant forall o | o in orders ::
          orders[o] == if o in found[..i] then old(orders)[o].(status := Invalid) else old(orders)[o]
        invariant report == found[..i]
      {
        var o := found[i];
        assert found[..i + 1] == found[..i] + [o];
        assert o !in found[..i];
        if orders[o].status != Invalid {
          report := report + [o];
          orders := orders[o := orders[o].(status := Invalid)];
        }
        i := i + 1;
      }
    }
  }

  // ---------- invisible to issuance ----------

  /** A sweep at t' <= t never changes the answer that the issuance gate gives at t. */
  lemma SweepIsInvisibleToTheGate(authzs: map<string, AuthzRow>, o: string, t': int, t: int)
    requires t' <= t
    ensures GateOpen(SweptAuthzs(authzs, t'), o, t) <==> GateOpen(authzs, o, t)
  {
    var swept := SweptAuthzs(authzs, t');
    assert AuthzsOf(swept, o) == AuthzsOf(authzs, o);
    forall a | a in authzs ensures UsableAt(swept[a], t) <==> UsableAt(authzs[a], t) {
    }
  }

  /** Nor does a row that never expires ever get swept. */
  lemma NeverMeansNever(authzs: map<string, AuthzRow>, a: string, t: int)
    requires a in authzs && (authzs[a].expires.None? || authzs[a].expires.value == 0)
    ensures SweptAuthzs(authzs, t)[a] == authzs[a] && a !in AuthzReport(authzs, t)
    ensures authzs[a].status == Valid ==> UsableAt(authzs[a], t)
  {
  }

  // ---------- sweeps compose and never report twice ----------

  /** Sweeping at t1 and then at t2 >= t1 leaves the table of sweeping at t2 alone, and
      the two reports split the single one. */
  lemma AuthzSweepsCompose(authzs: map<string, AuthzRow>, t1: int, t2: int)
    requires t1 <= t2
    ensures SweptAuthzs(SweptAuthzs(authzs, t1), t2) == SweptAuthzs(authzs, t2)
    ensures AuthzReport(authzs, t1) !! AuthzReport(SweptAuthzs(authzs, t1), t2)
    ensures AuthzReport(authzs, t1) + AuthzReport(SweptAuthzs(authzs, t1), t2) == AuthzReport(authzs, t2)
  {
    var mid := SweptAuthzs(authzs, t1);
    var twice, once := SweptAuthzs(mid, t2), SweptAuthzs(authzs, t2);
    assert twice.Keys == once.Keys;
    forall a | a in authzs ensures twice[a] == once[a] {
    }
  }

  lemma OrderSweepsCompose(orders: map<string, OrderRow>, t1: int, t2: int)
    requires t1 <= t2
    ensures SweptOrders(SweptOrders(orders, t1), t2) == SweptOrders(orders, t2)
    ensures OrderReport(orders, t1) !! OrderReport(SweptOrders(orders, t1), t2)
    ensures OrderReport(orders, t1) + OrderReport(SweptOrders(orders, t1), t2) == OrderReport(orders, t2)
  {
    var mid := SweptOrders(orders, t1);
    var twice, once := SweptOrders(mid, t2), SweptOrders(orders, t2);
    assert twice.Keys == once.Keys;
    forall o | o in orders ensures twice[o] == once[o] {
    }
  }
}
