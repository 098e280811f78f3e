/** Creating an order with one authorization for each of its identifiers. */
module OrderCreation {
  import opened AcmeTables
  import opened IssuanceSafety

  const SERVER_ERROR := "urn:ietf:params:acme:error:serverInternal"
  const MALFORMED := "urn:ietf:params:acme:error:malformed"
  const UNSUPPORTED := "urn:ietf:params:acme:error:unsupportedIdentifier"

  /** What the policy says about the identifiers and the profile of a request. */
  datatype Policy = Accepted | Rejected(error: string) | BadProfile(error: string)

  /** Whether the database raises while an authorization is inserted, or (in simulation
      mode) while it is marked valid. */
  datatype Loss = NoLoss | InsertLost | MarkLost

  datatype Outside = Outside(
    policy: Policy,
    orderName: string,
    names: nat -> string,      // random authorization names
    until: int,
    authzUntil: Option<int>,   // None: the store leaves the column empty
    simulation: bool,
    orderLost: bool,
    loss: nat -> Loss)

  /** Random names do not repeat and are not in use. */
  ghost predicate FreshNames(db: Tables, names: nat -> string, n: nat) {
    && (forall i, j | 0 <= i < j < n :: names(i) != names(j))
    && forall i | 0 <= i < n :: names(i) !in db.authzs
  }

  function Named(names: nat -> string, n: nat): (s: seq<string>)
    ensures |s| == n && forall i | 0 <= i < n :: s[i] == names(i)
  {
    seq(n, i requires 0 <= i < n => names(i))
  }

  /** The rows that were there stay as they are, the others are those of the order. */
  ghost predicate OnlyAdds(d: map<string, AuthzRow>, e: map<string, AuthzRow>, o: string, names: seq<string>) {
    && (forall a | a in d :: a in e && e[a] == d[a])
    && (forall a | a in e && a !in d :: a in names && e[a].order == o)
  }

  lemma AddsOneMore(d: map<string, AuthzRow>, e: map<string, AuthzRow>, o: string, names: seq<string>,
                    a: string, row: AuthzRow)
    requires OnlyAdds(d, e, o, names) && a !in e && row.order == o
    ensures OnlyAdds(d, e, o, names + [a]) && OnlyAdds(d, e[a := row], o, names + [a])
  {
  }

  function NewRow(o: string, id: Identifier, out: Outside, loss: Loss): AuthzRow {
    AuthzRow(o, id, if out.simulation && loss != MarkLost then Valid else Pending, out.authzUntil, "")
  }

  /** The authorization table after the identifiers from the k-th on were served, up to the
      first one at which the database raises. */
  function CreatedFrom(authzs: map<string, AuthzRow>, o: string, ids: seq<Identifier>, out: Outside, k: nat)
    : map<string, AuthzRow>
    requires k <= |ids|
    decreases |ids| - k
  {
    if k == |ids| || out.loss(k) == InsertLost then authzs
    else
      var next := authzs[out.names(k) := NewRow(o, ids[k], out, out.loss(k))];
      if out.simulation && out.loss(k) == MarkLost then next else CreatedFrom(next, o, ids, out, k + 1)
  }

  /** A row whose key is none of the names to come is left alone, and without a failure every
      name to come gets its row. */
  lemma {:induction false} RowsCreated(authzs: map<string, AuthzRow>, o: string, ids: seq<Identifier>, out: Outside,
                                       k: nat)
    requires k <= |ids| && forall i, j | 0 <= i < j < |ids| :: out.names(i) != out.names(j)
    requires forall i | k <= i < |ids| :: !(out.loss(i) == InsertLost || (out.simulation && out.loss(i) == MarkLost))
    ensures var all := CreatedFrom(authzs, o, ids, out, k);
            && (forall a | a in authzs && (forall i | k <= i < |ids| :: out.names(i) != a) ::
                  a in all && all[a] == authzs[a])
            && (forall i | k <= i < |ids| ::
                  && out.names(i) in all
                  && all[out.names(i)]
                       == AuthzRow(o, ids[i], if out.simulation then Valid else Pending, out.authzUntil, ""))
    decreases |ids| - k
  {
    if k < |ids| {
      RowsCreated(authzs[out.names(k) := NewRow(o, ids[k], out, out.loss(k))], o, ids, out, k + 1);
    }
  }

  lemma AllCreated(db: Tables, o: string, ids: seq<Identifier>, out: Outside)
    requires FreshNames(db, out.names, |ids|)
    requires forall i | 0 <= i < |ids| :: !(out.loss(i) == InsertLost || (out.simulation && out.loss(i) == MarkLost))
    ensures var all, names := CreatedFrom(db.authzs, o, ids, out, 0), Named(out.names, |ids|);
            && OwnAuthzs(all, o, ids, names)
            && forall k | 0 <= k < |ids| ::
                 && out.names(k) in all
                 && all[out.names(k)]
                      == AuthzRow(o, ids[k], if out.simulation then Valid else Pending, out.authzUntil, "")
  {
    RowsCreated(db.authzs, o, ids, out, 0);
  }

  lemma NextName(before: Tables, authzs: map<string, AuthzRow>, o: string, ids: seq<Identifier>, out: Outside, k: nat)
    requires k < |ids| && FreshNames(before, out.names, |ids|)
    requires OnlyAdds(before.authzs, authzs, o, Named(out.names, k))
    ensures var a, row := out.names(k), NewRow(o, ids[k], out, out.loss(k));
            && a !in authzs && Named(out.names, k) + [a] == Named(out.names, k + 1)
            && OnlyAdds(before.authzs, authzs, o, Named(out.names, k + 1))
            && OnlyAdds(before.authzs, authzs[a := row], o, Named(out.names, k + 1))
  {
    AddsOneMore(before.authzs, authzs, o, Named(out.names, k), out.names(k), NewRow(o, ids[k], out, out.loss(k)));
  }

  function AfterCreation(db: Tables, account: string, ids: Option<seq<Identifier>>, profile: string, out: Outside)
    : Tables
  {
    if ids.None? || out.orderLost then db
    else
      var status := if out.policy.Rejected? then Invalid else Pending;
      db.(orders := db.orders[out.orderName := OrderRow(account, ids.value, profile, status, out.until)],
          authzs := if out.policy.Accepted? then CreatedFrom(db.authzs, out.orderName, ids.value, out, 0)
                    else db.authzs)
  }

  class OrderCreator {
    var db: Tables

    constructor (db: Tables)
      ensures this.db == db
    {
      this.db := db;
    }

    method AddAuthorization(a: string, row: AuthzRow)
      requires a !in db.authzs
      modifies this
      ensures db == old(db).(authzs := old(db).authzs[a := row])
    {
      db := db.(authzs := db.authzs[a := row]);
    }

    method MarkValid(a: string)
      requires a in db.authzs
      modifies this
      ensures db == SetAuthz(old(db), a, Valid)
    {
      db := db.(authzs := db.authzs[a := db.authzs[a].(status := Valid)]);
    }

    /** One authorization for one identifier; tells whether the database raised. */
    method AddFor(o: string, id: Identifier, a: string, out: Outside, loss: Loss) returns (raised: bool)
      requires a !in db.authzs
      modifies this
      ensures raised <==> loss == InsertLost || (out.simulation && loss == MarkLost)
      ensures db == if loss == InsertLost then old(db)
                    else old(db).(authzs := old(db).authzs[a := NewRow(o, id, out, loss)])
    {
      if loss == InsertLost {
        return true;
      }
      AddAuthorization(a, AuthzRow(o, id, Pending, out.authzUntil, ""));
      if out.simulation {
        if loss == MarkLost {
          return true;
        }
        MarkValid(a);
      }
      return false;
    }

    method AddAuthorizations(o: string, ids: seq<Identifier>, out: Outside) returns (names: seq<string>, error: string)
      requires FreshNames(db, out.names, |ids|)
      modifies this
      ensures db == old(db).(authzs := CreatedFrom(old(db).authzs, o, ids, out, 0))
      ensures names == Named(out.names, |names|) && |names| <= |ids|
      ensures OnlyAdds(old(db).authzs, db.authzs, o, names)
      ensures error == "" <==>
                forall k | 0 <= k < |ids| :: !(out.loss(k) == InsertLost || (out.simulation && out.loss(k) == MarkLost))
      ensures error == "" || error == "urn:ietf:params:acme:error:serverInternal"
      ensures error == "" ==>
                && |names| == |ids| && OwnAuthzs(db.authzs, o, ids, names)
                && forall k | 0 <= k < |names| ::
                     db.authzs[names[k]].status == if out.simulation then Valid else Pending
      // in columns: each new row belongs to the order, has its expiry, and no token yet
      ensures error == "" ==>
                forall k | 0 <= k < |ids| ::
                  && out.names(k) in db.authzs
                  && db.authzs[out.names(k)]
                       == AuthzRow(o, ids[k], if out.simulation then Valid else Pending, out.authzUntil, "")
    {
      names, error := [], "";
      var k := 0;
      while k < |ids|
        invariant k <= |ids| && error == ""
        invariant names == Named(out.names, k)
        invariant db == old(db).(authzs := db.authzs)
        invariant CreatedFrom(old(db).authzs, o, ids, out, 0) == CreatedFrom(db.authzs, o, ids, out, k)
        invariant OnlyAdds(old(db).authzs, db.authzs, o, names)
        invariant forall j | 0 <= j < k :: !(out.loss(j) == InsertLost || (out.simulation && out.loss(j) == MarkLost))
      {
        var a := out.names(k);
        names := names + [a];
        NextName(old(db), db.authzs, o, ids, out, k);
        var raised := AddFor(o, ids[k], a, out, out.loss(k));
        if raised {
          return names, SERVER_ERROR;
        }
        k := k + 1;
      }
      AllCreated(old(db), o, ids, out);
    }

    /** A created order is pending and has exactly one authorization of its own for each of
        its identifiers - valid at once in simulation mode - and no other; a rejected one is
        invalid, and one with a bad profile pending, and both have no authorization. */
    method CreateOrder(account: string, ids: Option<seq<Identifier>>, profile: string, out: Outside)
        returns (names: seq<string>, error: string)
      requires out.orderName !in db.orders && (forall a | a in db.authzs :: db.authzs[a].order != out.orderName)
      requires ids.Some? ==> FreshNames(db, out.names, |ids.value|)
      requires ids == Some([]) ==> !out.policy.Accepted?
      requires out.policy != Rejected("") && out.policy != BadProfile("")
      modifies this
      ensures ids.None? ==> db == old(db) && error == UNSUPPORTED
      ensures ids.Some? && !out.orderLost ==>
                db.orders == old(db).orders[out.orderName :=
                  OrderRow(account, ids.value, profile, if out.policy.Rejected? then Invalid else Pending, out.until)]
      ensures out.orderLost ==> db == old(db) && error != ""
      ensures db == old(db).(orders := db.orders, authzs := db.authzs)
      ensures db == AfterCreation(old(db), account, ids, profile, out)
      ensures ids.Some? && !out.policy.Accepted? ==> error == out.policy.error && names == []
      ensures ids.Some? && out.policy.Accepted? && out.orderLost ==> error == MALFORMED
      ensures error == "" ==>
                && ids.Some? && |names| == |ids.value|
                && OwnAuthzs(db.authzs, out.orderName, ids.value, names)
                && AuthzsOf(db.authzs, out.orderName) == (set a | a in names)
                && (AllValid(db.authzs, out.orderName) <==> out.simulation)
                && forall k | 0 <= k < |ids.value| ::
                     && names[k] == out.names(k) && names[k] in db.authzs
                     && db.authzs[names[k]] == AuthzRow(out.orderName, ids.value[k],
                          if out.simulation then Valid else Pending, out.authzUntil, "")
      // the error by its text: no identifiers, the policy's own, a lost order row, a lost authorization
      ensures ids.None? ==> error == "urn:ietf:params:acme:error:unsupportedIdentifier"
      ensures ids.Some? && out.policy.Accepted? ==>
                error == if out.orderLost then "urn:ietf:params:acme:error:malformed"
                         else if forall k | 0 <= k < |ids.value| ::
                                   !(out.loss(k) == InsertLost || (out.simulation && out.loss(k) == MarkLost)) then ""
                         else "urn:ietf:params:acme:error:serverInternal"
      ensures !out.policy.Accepted? ==> AuthzsOf(db.authzs, out.orderName) == {} && error != ""
    {
      names := [];
      if ids.None? {
        return names, UNSUPPORTED;
      }
      error := match out.policy case Accepted => "" case Rejected(e) => e case BadProfile(e) => e;
      if !out.orderLost {
        var status := if out.policy.Rejected? then Invalid else Pending;
        db := db.(orders := db.orders[out.orderName := OrderRow(account, ids.value, profile, status, out.until)]);
      }
      if error == "" {
        if out.orderLost {
          error := MALFORMED;
        } else {
          names, error := AddAuthorizations(out.orderName, ids.value, out);
          if error == "" {
            assert names[0] in AuthzsOf(db.authzs, out.orderName);
          }
        }
      }
    }
  }
}
