/** The life of an order from its creation to its certificate, as one run. */
module OrderLife {
  import opened AcmeTables
  import opened Binding
  import opened OrderMachine
  import opened FinalizeServer
  import opened Reaching
  import opened SoloRun
  import opened ValidationRuns
  import ChallengeSets
  import ValidationRetry

  predicate Distinct(names: seq<string>) {
    forall i, j | 0 <= i < j < |names| :: names[i] != names[j]
  }

  // ---------- creation ----------

  /** The authorization table after the authorizations from the n-th on were added. */
  function AddedFrom(authzs: map<string, AuthzRow>, o: string, ids: seq<Identifier>, names: seq<string>, n: nat,
                     status: Status, until: int): map<string, AuthzRow>
    requires n <= |names| == |ids|
    decreases |names| - n
  {
    if n == |names| then authzs
    else
      var row := AuthzRow(o, ids[n], status, Some(until), "");
      AddedFrom(authzs[names[n] := row], o, ids, names, n + 1, status, until)
  }

  lemma {:induction false} AddedRows(authzs: map<string, AuthzRow>, o: string, ids: seq<Identifier>, names: seq<string>,
                                     n: nat, status: Status, until: int)
    requires n <= |names| == |ids| && Distinct(names)
    ensures var all := AddedFrom(authzs, o, ids, names, n, status, until);
            && (forall i | n <= i < |names| ::
                  names[i] in all && all[names[i]] == AuthzRow(o, ids[i], status, Some(until), ""))
            && (forall a :: a in all <==> a in authzs || exists i :: n <= i < |names| && names[i] == a)
            && (forall a | a in authzs && (forall i | n <= i < |names| :: names[i] != a) :: all[a] == authzs[a])
    decreases |names| - n
  {
    if n < |names| {
      AddedRows(authzs[names[n] := AuthzRow(o, ids[n], status, Some(until), "")], o, ids, names, n + 1, status, until);
    }
  }

  function StartStatus(c: Config): Status {
    if c.simulation then Valid else Pending
  }

  lemma AuthzIsInserted(c: Config, R: iset<State>, t: State, pid: nat, p: Proc, a: string, until: int)
    returns (u: State)
    requires Closed(c, R) && t in R && Alive(t, pid, p) && p.Create? && p.cpc == CAuthzs
    requires |p.names| < |p.identifiers| && a !in t.db.authzs
    ensures var row := AuthzRow(p.order, p.identifiers[|p.names|], Pending, Some(until), "");
            u in R && u.db == t.db.(authzs := t.db.authzs[a := row])
    ensures OnlyMoved(t, u, pid, p.(names := p.names + [a], cpc := if c.simulation then CSimulate(a) else CAuthzs))
  {
    u := GoCreate(c, R, t, pid, p, CALM.(name := a, until := until));
  }

  lemma AuthzIsSimulated(c: Config, R: iset<State>, t: State, pid: nat, p: Proc, a: string) returns (u: State)
    requires Closed(c, R) && t in R && Alive(t, pid, p) && p.Create? && p.cpc == CSimulate(a)
    ensures u in R && u.db == SetAuthz(t.db, a, Valid) && OnlyMoved(t, u, pid, p.(cpc := CAuthzs))
  {
    u := GoCreate(c, R, t, pid, p, CALM);
  }

  lemma OneAuthzIsCreated(c: Config, R: iset<State>, t: State, pid: nat, p: Proc, a: string, until: int)
    returns (u: State)
    requires Closed(c, R) && t in R && Alive(t, pid, p) && p.Create? && p.cpc == CAuthzs
    requires |p.names| < |p.identifiers| && a !in t.db.authzs
    ensures var row := AuthzRow(p.order, p.identifiers[|p.names|], StartStatus(c), Some(until), "");
            u in R && u.db == t.db.(authzs := t.db.authzs[a := row])
    ensures OnlyMoved(t, u, pid, p.(names := p.names + [a]))
  {
    u := AuthzIsInserted(c, R, t, pid, p, a, until);
    if c.simulation {
      u := AuthzIsSimulated(c, R, u, pid, p.(names := p.names + [a], cpc := CSimulate(a)), a);
    }
  }

  lemma {:induction false} AuthzsAreCreated(c: Config, R: iset<State>, t: State, pid: nat, p: Proc, names: seq<string>,
                                            until: int)
    returns (u: State)
    requires Closed(c, R) && t in R && Alive(t, pid, p) && p.Create? && p.cpc == CAuthzs
    requires |names| == |p.identifiers| && p.names <= names && Distinct(names)
    requires forall i | |p.names| <= i < |names| :: names[i] !in t.db.authzs
    ensures u in R && OnlyMoved(t, u, pid, p.(names := names))
    ensures u.db == t.db.(authzs :=
              AddedFrom(t.db.authzs, p.order, p.identifiers, names, |p.names|, StartStatus(c), until))
    decreases |names| - |p.names|
  {
    var n := |p.names|;
    if n == |names| {
      u := t;
      assert p.names == names;
    } else {
      var q := p.(names := p.names + [names[n]]);
      u := OneAuthzIsCreated(c, R, t, pid, p, names[n], until);
      u := AuthzsAreCreated(c, R, u, pid, q, names, until);
    }
  }

  lemma OrderIsDisclosed(c: Config, R: iset<State>, t: State, pid: nat, p: Proc) returns (u: State)
    requires Closed(c, R) && t in R && Alive(t, pid, p) && p.Create? && p.cpc == CAuthzs
    requires |p.names| == |p.identifiers| && p.order !in t.disclosed
    ensures u in R
    ensures u == t.(procs := t.procs[pid := p.(cpc := CEnd)], disclosed := t.disclosed[p.order := p.names])
  {
    u := Step(c, t, Advance(pid, CALM));
    assert u == Take(t, pid, CreateTurn(c, t, p, CALM));
  }

  lemma OrderIsStored(c: Config, R: iset<State>, account: string, o: string, ids: seq<Identifier>) returns (t: State)
    requires Closed(c, R) && Initial() in R && ids != []
    ensures t in R && t.db == Initial().db.(orders := map[o := OrderRow(account, ids, "", Pending, 0)])
    ensures OnlyMoved(Initial(), t, 0, Create(o, account, ids, "", [], CAuthzs))
  {
    t := Begin(c, R, Initial(), 0, Create(o, account, ids, "", [], CBegin));
    t := GoCreate(c, R, t, 0, Create(o, account, ids, "", [], CBegin), CALM);
  }

  /** An order is created and disclosed, each identifier with its authorization. */
  lemma OrderIsCreated(c: Config, R: iset<State>, account: string, o: string, ids: seq<Identifier>, names: seq<string>,
                       until: int) returns (t: State)
    requires Closed(c, R) && Initial() in R && ids != [] && |names| == |ids| && Distinct(names)
    ensures t in R && t.now == 0 && t.dead == {} && t.procs.Keys == {0} && t.disclosed == map[o := names]
    ensures t.db == Tables(map[o := OrderRow(account, ids, "", Pending, 0)],
                           AddedFrom(map[], o, ids, names, 0, StartStatus(c), until), map[], map[])
  {
    var p := Create(o, account, ids, "", [], CAuthzs);
    t := OrderIsStored(c, R, account, o, ids);
    t := AuthzsAreCreated(c, R, t, 0, p, names, until);
    t := OrderIsDisclosed(c, R, t, 0, p.(names := names));
  }

  // ---------- proof of control ----------

  lemma TokenIsPersisted(c: Config, R: iset<State>, t: State, pid: nat, a: string, token: string, until: int)
    returns (u: State)
    requires Closed(c, R) && t in R && Fresh(t, pid)
    requires a in t.db.authzs && Strip(t.db.authzs[a].token) == "" && t.db.authzs[a].order in t.disclosed
    ensures u in R
    ensures u.db == t.db.(authzs := t.db.authzs[a := t.db.authzs[a].(token := token, expires := Some(until))])
    ensures OnlyMoved(t, u, pid, Fetch(a, GDetails))
  {
    u := Begin(c, R, t, pid, Fetch(a, GToken));
    u := GoFetch(c, R, u, pid, Fetch(a, GToken), CALM.(name := token, until := until));
  }

  predicate HasChallenges(db: Tables, a: string) {
    exists ch :: ch in db.challenges && db.challenges[ch].authz == a
  }

  lemma ChallengeIsPlanned(c: Config, R: iset<State>, t: State, pid: nat, a: string, kind: string) returns (u: State)
    requires !c.jit && c.prevalidation == {}
    requires Closed(c, R) && t in R && Alive(t, pid, Fetch(a, GDetails))
    requires a in t.db.authzs && !HasChallenges(t.db, a)
    ensures u in R && u.db == t.db && OnlyMoved(t, u, pid, Fetch(a, GCreate([kind])))
  {
    u := GoFetch(c, R, t, pid, Fetch(a, GDetails), CALM.(accepted := false, verdict := Failed));
    u := GoFetch(c, R, u, pid, Fetch(a, GChallenges), CALM.(kinds := [kind]));
  }

  lemma ChallengeIsAdded(c: Config, R: iset<State>, t: State, pid: nat, a: string, todo: seq<string>, ch: string)
    returns (u: State)
    requires Closed(c, R) && t in R && Alive(t, pid, Fetch(a, GCreate(todo))) && todo != []
    requires a in t.db.authzs && ch !in t.db.challenges
    ensures u in R && OnlyMoved(t, u, pid, Fetch(a, GCreate(todo[1..])))
    ensures u.db == t.db.(challenges :=
              t.db.challenges[ch := ChallengeSets.NewRow(a, todo[0], Strip(t.db.authzs[a].token))])
  {
    u := GoFetch(c, R, t, pid, Fetch(a, GCreate(todo)), CALM.(name := ch));
  }

  /** Reading an authorization persists a token and creates a challenge. */
  lemma ChallengeIsCreated(c: Config, R: iset<State>, t: State, pid: nat, a: string, kind: string, token: string,
                           ch: string)
    returns (u: State)
    requires !c.jit && c.prevalidation == {} && Closed(c, R) && t in R && Fresh(t, pid)
    requires a in t.db.authzs && t.db.authzs[a].token == "" && t.db.authzs[a].order in t.disclosed
    requires !HasChallenges(t.db, a) && ch !in t.db.challenges
    ensures u in R && OnlyMoved(t, u, pid, Fetch(a, GCreate([])))
    ensures u.db == t.db.(
              authzs := t.db.authzs[a := t.db.authzs[a].(token := token, expires := Some(0))],
              challenges := t.db.challenges[ch := ChallengeSets.NewRow(a, kind, Strip(token))])
  {
    u := TokenIsPersisted(c, R, t, pid, a, token, 0);
    u := ChallengeIsPlanned(c, R, u, pid, a, kind);
    assert [kind][1..] == [];
    u := ChallengeIsAdded(c, R, u, pid, a, [kind], ch);
  }

  /** A validation that passes, with no failing write. */
  lemma ChallengeIsPassed(c: Config, R: iset<State>, t: State, pid: nat, account: string, ch: string) returns (u: State)
    requires Closed(c, R) && t in R && Fresh(t, pid) && MayStart(c, t, Validate(account, ch, VBegin))
    ensures u in R && OnlyMoved(t, u, pid, Validate(account, ch, VEnd))
    ensures u.db == SetAuthz(SetChallenge(t.db, ch, Valid), t.db.challenges[ch].authz, Valid)
  {
    var answers := (i: nat) => ValidationRetry.Says(true, false);
    var out := ValidationRetry.Outside(false, ValidationRetry.NotConfigured, true, answers);
    u := ValidationGoesThrough(c, R, t, pid, account, ch, out, i => false, 0);
    PassedAtOnce(t.db, ch, answers);
  }

  lemma PassedAtOnce(db: Tables, ch: string, answers: nat -> ValidationRetry.Answer)
    requires ch in db.challenges && answers(0) == ValidationRetry.Says(true, false)
    ensures var out := ValidationRetry.Outside(false, ValidationRetry.NotConfigured, true, answers);
            ValidationRetry.AfterValidation(db, ch, out, i => false, 0)
              == SetAuthz(SetChallenge(db, ch, Valid), db.challenges[ch].authz, Valid)
  {
    var begun := SetChallenge(db, ch, Processing);
    assert SetChallenge(begun, ch, Valid).challenges == SetChallenge(db, ch, Valid).challenges;
  }

  // ---------- one identifier after the other ----------

  /** The first k authorizations of the order are usable, the others still fresh. */
  ghost predicate ProvedUpTo(t: State, o: string, account: string, ids: seq<Identifier>, names: seq<string>,
                             chs: seq<string>, k: nat) {
    && t.dead == {} && t.disclosed == map[o := names] && t.now == 0
    && (forall pid | pid in t.procs :: pid <= 2 * k)
    && t.db.certs == map[] && t.db.orders == map[o := OrderRow(account, ids, "", Pending, 0)]
    && k <= |names| == |ids| == |chs|
    && (forall a :: a in t.db.authzs <==> a in names)
    && (forall i | 0 <= i < |names| :: t.db.authzs[names[i]].order == o)
    && (forall i | 0 <= i < k :: UsableAt(t.db.authzs[names[i]], 0))
    && (forall i | k <= i < |names| :: t.db.authzs[names[i]].token == "")
    && forall x | x in t.db.challenges ::
         exists i :: 0 <= i < k && x == chs[i] && t.db.challenges[x].authz == names[i]
  }

  lemma OneMoreProved(t: State, u: State, o: string, account: string, ids: seq<Identifier>, names: seq<string>,
                      chs: seq<string>, k: nat, row: AuthzRow, x: string, xrow: ChallengeRow)
    requires ProvedUpTo(t, o, account, ids, names, chs, k) && k < |names| && Distinct(names)
    requires u.dead == {} && u.disclosed == t.disclosed && u.now == t.now
    requires u.procs.Keys == t.procs.Keys + {2 * k + 1, 2 * k + 2}
    requires row.order == o && UsableAt(row, 0) && x == chs[k] && xrow.authz == names[k]
    requires u.db == t.db.(authzs := t.db.authzs[names[k] := row], challenges := t.db.challenges[x := xrow])
    ensures ProvedUpTo(u, o, account, ids, names, chs, k + 1)
  {
    assert names[k] in names;
    forall y | y in u.db.challenges
      ensures exists i :: 0 <= i < k + 1 && y == chs[i] && u.db.challenges[y].authz == names[i]
    {
      if y == x {
        assert u.db.challenges[y].authz == names[k];
      }
    }
  }

  lemma ProvedRows(db: Tables, a: string, ch: string, row: AuthzRow, xrow: ChallengeRow)
    requires a in db.authzs && xrow.authz == a
    ensures var d := db.(authzs := db.authzs[a := row], challenges := db.challenges[ch := xrow]);
            SetAuthz(SetChallenge(d, ch, Valid), a, Valid)
              == db.(authzs := db.authzs[a := row.(status := Valid)],
                     challenges := db.challenges[ch := xrow.(status := Valid)])
  {
    var d := db.(authzs := db.authzs[a := row], challenges := db.challenges[ch := xrow]);
    var e := SetAuthz(SetChallenge(d, ch, Valid), a, Valid);
    assert e.authzs == db.authzs[a := row.(status := Valid)];
    assert e.challenges == db.challenges[ch := xrow.(status := Valid)];
  }

  /** Reading an authorization and passing its challenge makes it usable. */
  lemma ControlIsProved(c: Config, R: iset<State>, t: State, pid: nat, account: string, a: string, ch: string)
    returns (u: State, row: AuthzRow, xrow: ChallengeRow)
    requires !c.jit && c.prevalidation == {} && account != ""
    requires Closed(c, R) && t in R && Fresh(t, pid) && Fresh(t, pid + 1)
    requires a in t.db.authzs && t.db.authzs[a].token == "" && t.db.authzs[a].order in t.disclosed
    requires t.db.authzs[a].order in t.db.orders && t.db.orders[t.db.authzs[a].order].account == account
    requires !HasChallenges(t.db, a) && ch !in t.db.challenges
    ensures u in R && u.dead == t.dead && u.disclosed == t.disclosed && u.now == t.now
    ensures u.procs.Keys == t.procs.Keys + {pid, pid + 1}
    ensures row == t.db.authzs[a].(status := Valid, token := "token", expires := Some(0)) && xrow.authz == a
    ensures u.db == t.db.(authzs := t.db.authzs[a := row], challenges := t.db.challenges[ch := xrow])
  {
    var mid := ChallengeIsCreated(c, R, t, pid, a, "http-01", "token", ch);
    u := ChallengeIsPassed(c, R, mid, pid + 1, account, ch);
    ProvedRows(t.db, a, ch, mid.db.authzs[a], mid.db.challenges[ch]);
    row := t.db.authzs[a].(status := Valid, token := "token", expires := Some(0));
    xrow := mid.db.challenges[ch].(status := Valid);
  }

  lemma OneIsProved(c: Config, R: iset<State>, t: State, o: string, account: string, ids: seq<Identifier>,
                    names: seq<string>, chs: seq<string>, k: nat) returns (u: State)
    requires !c.jit && c.prevalidation == {} && account != "" && Distinct(names) && Distinct(chs)
    requires Closed(c, R) && t in R && ProvedUpTo(t, o, account, ids, names, chs, k) && k < |names|
    ensures u in R && ProvedUpTo(u, o, account, ids, names, chs, k + 1)
  {
    assert names[k] in names;
    var row, xrow;
    u, row, xrow := ControlIsProved(c, R, t, 2 * k + 1, account, names[k], chs[k]);
    OneMoreProved(t, u, o, account, ids, names, chs, k, row, chs[k], xrow);
  }

  lemma {:induction false} AllAreProved(c: Config, R: iset<State>, t: State, o: string, account: string,
                                        ids: seq<Identifier>, names: seq<string>, chs: seq<string>, k: nat)
    returns (u: State)
    requires !c.jit && c.prevalidation == {} && account != "" && Distinct(names) && Distinct(chs)
    requires Closed(c, R) && t in R && ProvedUpTo(t, o, account, ids, names, chs, k)
    ensures u in R && ProvedUpTo(u, o, account, ids, names, chs, |names|)
    decreases |names| - k
  {
    if k == |names| {
      u := t;
    } else {
      u := OneIsProved(c, R, t, o, account, ids, names, chs, k);
      u := AllAreProved(c, R, u, o, account, ids, names, chs, k + 1);
    }
  }

  /** An order for any identifiers is created and each of them proved with a challenge. */
  lemma OrderIsProved(c: Config, R: iset<State>, o: string, account: string, ids: seq<Identifier>, names: seq<string>,
                      chs: seq<string>) returns (u: State)
    requires Closed(c, R) && Initial() in R
    requires !c.simulation && !c.jit && c.prevalidation == {} && account != ""
    requires ids != [] && |names| == |ids| == |chs| && Distinct(names) && Distinct(chs)
    ensures u in R && ProvedUpTo(u, o, account, ids, names, chs, |names|)
  {
    u := OrderIsCreated(c, R, account, o, ids, names, 0);
    AddedRows(map[], o, ids, names, 0, Pending, 0);
    u := AllAreProved(c, R, u, o, account, ids, names, chs, 0);
  }

  lemma ProvedOpensGate(t: State, o: string, account: string, ids: seq<Identifier>, names: seq<string>,
                        chs: seq<string>)
    requires names != [] && ProvedUpTo(t, o, account, ids, names, chs, |names|)
    ensures GateOpen(t.db.authzs, o, t.now) && AllValid(t.db.authzs, o)
    ensures HasStatus(t.db, o, Pending) && t.db.certs == map[]
    ensures Fresh(t, 2 * |names| + 1) && Fresh(t, 2 * |names| + 2)
  {
    assert names[0] in names;
    assert names[0] in AuthzsOf(t.db.authzs, o);
    forall a | a in t.db.authzs ensures UsableAt(t.db.authzs[a], 0) {
      assert a in names;
    }
  }

  // ---------- finalization ----------

  /** A pending order whose gate is open is promoted, and its owner's request runs to its end. */
  lemma OrderIsFinalized(c: Config, R: iset<State>, t: State, o: string, pid: nat, csr: string, out: Outside)
    returns (u: State)
    requires Closed(c, R) && t in R && Fresh(t, pid) && Fresh(t, pid + 1) && out.certName !in t.db.certs
    requires o in t.disclosed && HasStatus(t.db, o, Pending) && AllValid(t.db.authzs, o) && t.db.orders[o].account != ""
    ensures u in R && u.disclosed == t.disclosed && u.dead == t.dead && u.procs.Keys <= t.procs.Keys + {pid, pid + 1}
    ensures u.db == OrderTables(c, SetOrder(t.db, o, Ready), o, Some(csr), out, t.now)
    ensures Refusal(c, SetOrder(t.db, o, Ready), o, Some(csr), out, t.now).None?
            && Awaited(c, out) && out.preHook.None? ==>
              Issued(pid, o, csr, false) in u.log
  {
    var p := Finalize(t.db.orders[o].account, o, Some(csr), FArrived);
    var r := PromotesAtOnce(c, R, t, o);
    r := Begin(c, R, r, pid, p);
    var reply;
    u, reply := RequestRuns(c, R, r, pid, p, pid + 1, out);
  }

  /** The same for the order of a proved state. */
  lemma ProvedIsFinalized(c: Config, R: iset<State>, t: State, o: string, account: string, ids: seq<Identifier>,
                          names: seq<string>, chs: seq<string>, csr: string, out: Outside) returns (u: State)
    requires Closed(c, R) && t in R && account != "" && names != []
    requires ProvedUpTo(t, o, account, ids, names, chs, |names|)
    ensures u in R && u.disclosed == t.disclosed && u.dead == {}
    ensures forall pid | pid in u.procs :: pid <= 2 * |names| + 2
    ensures u.db == OrderTables(c, SetOrder(t.db, o, Ready), o, Some(csr), out, t.now)
    ensures Refusal(c, SetOrder(t.db, o, Ready), o, Some(csr), out, t.now).None?
            && Awaited(c, out) && out.preHook.None? ==>
              Issued(2 * |names| + 1, o, csr, false) in u.log
  {
    ProvedOpensGate(t, o, account, ids, names, chs);
    u := OrderIsFinalized(c, R, t, o, 2 * |names| + 1, csr, out);
  }

  /** Without any shortcut configured, and for every CSR that fits, an order for any
      identifiers can be created, proved, promoted, finalized and issued: what is shown of
      issuances is not empty. */
  lemma OrderCanBeIssued(c: Config, o: string, account: string, ids: seq<Identifier>, names: seq<string>,
                         chs: seq<string>, csr: string, out: Outside) returns (u: State)
    requires !c.simulation && !c.jit && c.prevalidation == {} && account != ""
    requires ids != [] && |names| == |ids| == |chs| && Distinct(names) && Distinct(chs)
    requires CsrMatches(c, ids, csr) && !DryRun(c, "")
    requires out.csrAccepted && WentThrough(c, out) && out.store == Stored
    ensures Reaches(c, Initial(), u)
    ensures Issued(2 * |names| + 1, o, csr, false) in u.log
    ensures HasStatus(u.db, o, Valid) && HasCertificate(u.db, o)
  {
    ReachableIsClosed(c, Initial());
    u := OrderWentThrough(c, Reachable(c, Initial()), o, account, ids, names, chs, csr, out);
  }

  /** The same for every state that a closed set holds, whether the certificate could be
      stored or not. */
  lemma OrderWentThrough(c: Config, R: iset<State>, o: string, account: string, ids: seq<Identifier>,
                         names: seq<string>, chs: seq<string>, csr: string, out: Outside) returns (u: State)
    requires Closed(c, R) && Initial() in R
    requires !c.simulation && !c.jit && c.prevalidation == {} && account != ""
    requires ids != [] && |names| == |ids| == |chs| && Distinct(names) && Distinct(chs)
    requires CsrMatches(c, ids, csr) && !DryRun(c, "") && out.csrAccepted && WentThrough(c, out)
    ensures u in R && Issued(2 * |names| + 1, o, csr, false) in u.log
    ensures HasStatus(u.db, o, Valid) && (HasCertificate(u.db, o) <==> out.store == Stored)
  {
    var t := OrderIsProved(c, R, o, account, ids, names, chs);
    ProvedOpensGate(t, o, account, ids, names, chs);
    u := ProvedIsFinalized(c, R, t, o, account, ids, names, chs, csr, out);
    assert SetOrder(SetOrder(t.db, o, Ready), o, Processing).orders == SetOrder(t.db, o, Processing).orders;
    WentThroughLeavesCertificate(c, SetOrder(t.db, o, Processing), o, csr, out, t.now);
  }

  lemma WentThroughLeavesCertificate(c: Config, db: Tables, o: string, csr: string, out: Outside, now: int)
    requires HasStatus(db, o, Processing) && db.certs == map[] && WentThrough(c, out)
    ensures var e := EnrollTables(c, db, o, csr, out, now);
            HasStatus(e, o, Valid) && (HasCertificate(e, o) <==> out.store == Stored)
  {
    OutcomeAgrees(c, db, o, csr, out, now);
    var e := EnrollTables(c, db, o, csr, out, now);
    assert e.certs[out.certName].cert != "" <==> out.store == Stored;
    assert e.certs.Keys == {out.certName};
  }
}
