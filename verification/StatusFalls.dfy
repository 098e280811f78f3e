/** When the status of an order can fall back. */
module StatusFalls {
  import opened AcmeTables
  import opened Binding
  import opened OrderMachine
  import opened ClaimBound
  import opened Reaching
  import opened SoloRun
  import opened OrderLife
  import ChallengeSets

  // ---------- a claim ----------

  lemma RequestArrives(c: Config, R: iset<State>, t: State, pid: nat, o: string, csr: string) returns (u: State)
    requires Closed(c, R) && t in R && Fresh(t, pid) && o in t.disclosed
    requires HasStatus(t.db, o, Ready) && t.db.orders[o].account != ""
    ensures u in R && u.db == t.db && u.log == t.log
    ensures OnlyMoved(t, u, pid, Finalize(t.db.orders[o].account, o, Some(csr), FSawReady))
  {
    var p := Finalize(t.db.orders[o].account, o, Some(csr), FArrived);
    u := Begin(c, R, t, pid, p);
    u := GoAdmit(c, R, u, pid, p, CALM);
    u := GoAdmit(c, R, u, pid, p.(fpc := FOwned), CALM);
  }

  lemma FinalizeClaims(c: Config, R: iset<State>, t: State, pid: nat, o: string, csr: string) returns (u: State)
    requires Closed(c, R) && t in R && Fresh(t, pid) && o in t.disclosed
    requires HasStatus(t.db, o, Ready) && t.db.orders[o].account != ""
    ensures u in R && u.db == SetOrder(t.db, o, Processing) && u.log == t.log + [ClaimWon(pid, o)]
    ensures OnlyMoved(t, u, pid, Finalize(t.db.orders[o].account, o, Some(csr), FClaimed))
  {
    u := RequestArrives(c, R, t, pid, o, csr);
    u := RequestClaims(c, R, u, pid, Finalize(t.db.orders[o].account, o, Some(csr), FSawReady));
  }

  // ---------- promotion in several steps ----------

  lemma PromotionGoesOn(c: Config, R: iset<State>, t: State, pid: nat, o: string) returns (u: State)
    requires Closed(c, R) && t in R && Alive(t, pid, Promote(o, PRead))
    requires HasStatus(t.db, o, Pending) && AllValid(t.db.authzs, o)
    ensures u in R && u == t.(procs := t.procs[pid := Promote(o, PAllValid)])
  {
    u := GoPromote(c, R, t, pid, Promote(o, PRead), CALM);
    u := GoPromote(c, R, u, pid, Promote(o, PSawPending), CALM);
  }

  /** A promotion reads the order and its authorizations and is about to write. */
  lemma PromotionReads(c: Config, t: State, pid: nat, o: string) returns (u: State)
    requires Fresh(t, pid) && o in t.disclosed && HasStatus(t.db, o, Pending) && AllValid(t.db.authzs, o)
    ensures Continues(c, t, u) && u == t.(procs := t.procs[pid := Promote(o, PAllValid)])
  {
    var mid := BeginPromotion(c, t, pid, o);
    ReachableIsClosed(c, mid);
    u := PromotionGoesOn(c, Reachable(c, mid), mid, pid, o);
    ContinuesTransitive(c, t, mid, u);
  }

  lemma PromotionWrites(c: Config, R: iset<State>, t: State, pid: nat, o: string) returns (u: State)
    requires Closed(c, R) && t in R && Alive(t, pid, Promote(o, PAllValid))
    ensures u in R && u.db == SetOrder(t.db, o, Ready) && u.log == t.log + [ReadyWritten(o)]
    ensures OnlyMoved(t, u, pid, Promote(o, PEnd))
  {
    u := GoPromote(c, R, t, pid, Promote(o, PAllValid), CALM);
  }

  /** The order is claimed by two requests. */
  predicate ClaimedTwice(s: State, o: string, p: nat, q: nat) {
    exists i, j :: 0 <= i < j < |s.log| && s.log[i] == ClaimWon(p, o) && s.log[j] == ClaimWon(q, o)
  }

  /** A promotion that is about to write, and a request that claims the order it makes ready. */
  lemma PromotedIsClaimed(c: Config, t: State, pid: nat, f: nat, o: string, csr: string) returns (u: State)
    requires Alive(t, pid, Promote(o, PAllValid)) && Fresh(t, f) && o in t.disclosed
    requires o in t.db.orders && t.db.orders[o].account != ""
    ensures Continues(c, t, u) && HasStatus(u.db, o, Processing) && u.db.orders[o].account == t.db.orders[o].account
    ensures u.log == t.log + [ReadyWritten(o), ClaimWon(f, o)]
    ensures u.dead == t.dead && u.disclosed == t.disclosed && u.procs.Keys == t.procs.Keys + {f}
    ensures forall x | x in t.procs && x != pid :: u.procs[x] == t.procs[x]
  {
    ReachableIsClosed(c, t);
    u := PromotionWrites(c, Reachable(c, t), t, pid, o);
    u := FinalizeClaims(c, Reachable(c, t), u, f, o, csr);
  }

  /** As soon as any order is pending with all its authorizations valid, two promotions that
      read before either writes make it fall from processing back to ready and be claimed
      twice - even without just-in-time validation and prevalidation. Only the counted bound
      survives such runs. */
  lemma StalePromotionReopens(c: Config, s: State, o: string, csr: string, p: nat, q: nat, f: nat, g: nat)
    returns (mid: State, u: State)
    requires o in s.disclosed && HasStatus(s.db, o, Pending) && AllValid(s.db.authzs, o)
    requires s.db.orders[o].account != ""
    requires {p, q, f, g} !! s.procs.Keys && {p, q, f, g} !! s.dead
    requires p != q && p != f && p != g && q != f && q != g && f != g
    ensures Continues(c, s, mid) && HasStatus(mid.db, o, Processing)
    ensures Continues(c, mid, u) && ClaimedTwice(u, o, f, g)
  {
    var a := PromotionReads(c, s, p, o);
    var b := PromotionReads(c, a, q, o);
    ContinuesTransitive(c, s, a, b);
    mid := PromotedIsClaimed(c, b, p, f, o, csr);
    ContinuesTransitive(c, s, b, mid);
    u := PromotedIsClaimed(c, mid, q, g, o, csr);
    assert u.log[|mid.log| - 1] == ClaimWon(f, o) && u.log[|u.log| - 1] == ClaimWon(g, o);
  }

  // ---------- the shortcuts ----------

  /** The shortcut that a read of this authorization can take. */
  predicate ShortcutApplies(c: Config, row: AuthzRow) {
    || (c.jit && row.identifier.kind == "dns")
    || (HasList(c, row.identifier) && row.status != Valid)
  }

  predicate HasToken(row: AuthzRow) {
    Strip(row.token) != ""
  }

  lemma TokenIsThere(c: Config, R: iset<State>, t: State, pid: nat, a: string) returns (u: State)
    requires Closed(c, R) && t in R && Fresh(t, pid)
    requires a in t.db.authzs && HasToken(t.db.authzs[a]) && t.db.authzs[a].order in t.disclosed
    ensures u in R && u.db == t.db && OnlyMoved(t, u, pid, Fetch(a, GDetails))
  {
    u := Begin(c, R, t, pid, Fetch(a, GToken));
    u := GoFetch(c, R, u, pid, Fetch(a, GToken), CALM);
  }

  lemma ShortcutIsTaken(c: Config, R: iset<State>, t: State, pid: nat, a: string) returns (u: State, jit: bool)
    requires Closed(c, R) && t in R && Alive(t, pid, Fetch(a, GDetails))
    requires a in t.db.authzs && ShortcutApplies(c, t.db.authzs[a])
    ensures u in R && u.db == t.db && OnlyMoved(t, u, pid, Fetch(a, GMarkAuthz(jit)))
  {
    jit := c.jit && t.db.authzs[a].identifier.kind == "dns";
    u := GoFetch(c, R, t, pid, Fetch(a, GDetails), CALM.(verdict := if jit then Passed else Failed));
  }

  lemma ShortcutMarksAuthz(c: Config, R: iset<State>, t: State, pid: nat, a: string, jit: bool) returns (u: State)
    requires Closed(c, R) && t in R && Alive(t, pid, Fetch(a, GMarkAuthz(jit))) && a in t.db.authzs
    ensures u in R && u.db == SetAuthz(t.db, a, Valid) && OnlyMoved(t, u, pid, Fetch(a, GMarkOrder(jit)))
  {
    u := GoFetch(c, R, t, pid, Fetch(a, GMarkAuthz(jit)), CALM);
  }

  lemma ShortcutMarksOrder(c: Config, R: iset<State>, t: State, pid: nat, a: string, jit: bool) returns (u: State)
    requires Closed(c, R) && t in R && Alive(t, pid, Fetch(a, GMarkOrder(jit))) && a in t.db.authzs
    ensures u in R && u.db == SetOrder(t.db, t.db.authzs[a].order, Ready)
    ensures OnlyMoved(t, u, pid, Fetch(a, if jit then GEnd else GChallenges))
  {
    u := GoFetch(c, R, t, pid, Fetch(a, GMarkOrder(jit)), CALM);
  }

  /** A read that takes a shortcut writes its order ready, whatever the status of the order
      is by then. */
  lemma ShortcutGoesThrough(c: Config, R: iset<State>, t: State, pid: nat, a: string) returns (u: State)
    requires Closed(c, R) && t in R && Alive(t, pid, Fetch(a, GDetails))
    requires a in t.db.authzs && ShortcutApplies(c, t.db.authzs[a])
    ensures u in R && u.db == SetOrder(SetAuthz(t.db, a, Valid), t.db.authzs[a].order, Ready)
    ensures u.now == t.now && u.dead == t.dead && u.disclosed == t.disclosed && u.procs.Keys == t.procs.Keys
  {
    var jit;
    u, jit := ShortcutIsTaken(c, R, t, pid, a);
    u := ShortcutMarksAuthz(c, R, u, pid, a, jit);
    u := ShortcutMarksOrder(c, R, u, pid, a, jit);
  }

  lemma ShortcutReopens(c: Config, s: State, pid: nat, a: string) returns (u: State)
    requires Fresh(s, pid) && a in s.db.authzs && HasToken(s.db.authzs[a]) && ShortcutApplies(c, s.db.authzs[a])
    requires s.db.authzs[a].order in s.disclosed && s.db.authzs[a].order in s.db.orders
    ensures Reaches(c, s, u) && HasStatus(u.db, s.db.authzs[a].order, Ready)
  {
    ReachableIsClosed(c, s);
    u := TokenIsThere(c, Reachable(c, s), s, pid, a);
    u := ShortcutGoesThrough(c, Reachable(c, s), u, pid, a);
  }

  /** With just-in-time validation, reading a dns authorization takes its order back to ready
      whatever its status is by then - in processing, valid or invalid. */
  lemma JitReopensAnyOrder(c: Config, s: State, pid: nat, a: string) returns (u: State)
    requires c.jit && Fresh(s, pid)
    requires a in s.db.authzs && HasToken(s.db.authzs[a]) && s.db.authzs[a].identifier.kind == "dns"
    requires s.db.authzs[a].order in s.disclosed && s.db.authzs[a].order in s.db.orders
    ensures Reaches(c, s, u) && HasStatus(u.db, s.db.authzs[a].order, Ready)
  {
    u := ShortcutReopens(c, s, pid, a);
  }

  /** With prevalidation alone, reading an authorization that is not valid does the same, when
      a list is configured for the type of its identifier. */
  lemma PrevalidationReopens(c: Config, s: State, pid: nat, a: string) returns (u: State)
    requires !c.jit && Fresh(s, pid)
    requires a in s.db.authzs && HasToken(s.db.authzs[a]) && s.db.authzs[a].status != Valid
    requires HasList(c, s.db.authzs[a].identifier)
    requires s.db.authzs[a].order in s.disclosed && s.db.authzs[a].order in s.db.orders
    ensures Reaches(c, s, u) && HasStatus(u.db, s.db.authzs[a].order, Ready)
  {
    u := ShortcutReopens(c, s, pid, a);
  }

  // ---------- no fall exactly without the shortcuts ----------

  /** Along this run the order falls back after its n-th action. */
  ghost predicate Falls(c: Config, acts: seq<Action>, n: nat, o: string) {
    && Orderly(acts) && n <= |acts| && o in Run(c, acts[..n]).db.orders
    && !(o in Run(c, acts).db.orders
         && Rank(Run(c, acts[..n]).db.orders[o].status) <= Rank(Run(c, acts).db.orders[o].status))
  }

  /** An identifier to which some configured shortcut applies. */
  function NameFor(c: Config): Identifier {
    if c.jit || ChallengeSets.Domains in c.prevalidation then Identifier("dns", "x")
    else if ChallengeSets.Addresses in c.prevalidation then Identifier("ip", "x")
    else Identifier("email", "a@b")
  }

  lemma NameIsListed(c: Config)
    requires c.jit || c.prevalidation != {}
    ensures (c.jit && NameFor(c).kind == "dns") || HasList(c, NameFor(c))
  {
    assert "*."[0] != "x"[0] && "*."[0] != "a@b"[0] && "a@b"[1] == '@' && "x"[0] != '@';
    assert "dns"[0] == 'd' && "email"[0] == 'e' && "ip"[0] == 'i';
    if !c.jit && ChallengeSets.Domains !in c.prevalidation && ChallengeSets.Addresses !in c.prevalidation {
      var list :| list in c.prevalidation;
      assert list == ChallengeSets.Mails;
    }
  }

  /** The one order "o" with its one authorization "a", which expires at 1, and the number of
      processes so far. */
  ghost predicate OneOrder(c: Config, t: State, n: nat) {
    && t.dead == {} && t.now >= 1 && t.disclosed == map["o" := ["a"]] && (forall pid | pid in t.procs :: pid < n)
    && t.db.orders.Keys == {"o"} && t.db.orders["o"].account == "acct"
    && t.db.authzs.Keys == {"a"} && t.db.authzs["a"].order == "o" && t.db.authzs["a"].identifier == NameFor(c)
    && t.db.authzs["a"].expires == Some(1)
  }

  lemma OneOrderExists(c: Config, R: iset<State>) returns (t: State)
    requires Closed(c, R) && Initial() in R
    ensures t in R && OneOrder(c, t, 1) && t.db.authzs["a"].token == ""
  {
    t := OrderIsCreated(c, R, "acct", "o", [NameFor(c)], ["a"], 1);
    AddedRows(map[], "o", [NameFor(c)], ["a"], 0, StartStatus(c), 1);
    assert t.db.authzs["a"] == AuthzRow("o", NameFor(c), StartStatus(c), Some(1), "") by {
      assert ["a"][0] == "a" && [NameFor(c)][0] == NameFor(c);
    }
    t := TimePasses(c, R, t);
  }

  lemma TimePasses(c: Config, R: iset<State>, t: State) returns (u: State)
    requires Closed(c, R) && t in R && t.now == 0
    ensures u in R && u == t.(now := 1)
  {
    u := Step(c, t, Tick(1));
  }

  lemma AuthzExpires(c: Config, R: iset<State>, t: State, n: nat) returns (u: State)
    requires Closed(c, R) && t in R && OneOrder(c, t, n) && t.db.authzs["a"].status != Expired
    ensures u in R && u.db == SetAuthz(t.db, "a", Expired) && OnlyMoved(t, u, n, SweepAuthzs([]))
  {
    u := Begin(c, R, t, n, SweepAuthzs(["a"]));
    assert ["a"][1..] == [];
    u := GoSweepAuthzs(c, R, u, n, SweepAuthzs(["a"]), CALM);
  }

  lemma AuthzIsSwept(c: Config, R: iset<State>, t: State, n: nat) returns (u: State)
    requires Closed(c, R) && t in R && OneOrder(c, t, n)
    ensures u in R && OneOrder(c, u, n + 1) && u.db == SetAuthz(t.db, "a", Expired)
  {
    if t.db.authzs["a"].status == Expired {
      u := t;
      assert SetAuthz(t.db, "a", Expired).authzs == t.db.authzs;
    } else {
      u := AuthzExpires(c, R, t, n);
    }
  }

  lemma AuthzIsRead(c: Config, R: iset<State>, t: State, n: nat) returns (u: State)
    requires Closed(c, R) && t in R && OneOrder(c, t, n) && (t.db.authzs["a"].token == "" || HasToken(t.db.authzs["a"]))
    ensures u in R && OneOrder(c, u, n + 1) && Alive(u, n, Fetch("a", GDetails)) && HasToken(u.db.authzs["a"])
    ensures u.db.orders == t.db.orders && u.db.authzs["a"].status == t.db.authzs["a"].status
  {
    if HasToken(t.db.authzs["a"]) {
      u := TokenIsThere(c, R, t, n, "a");
    } else {
      assert !IsSpace("t"[0]) && Strip("t") == "t";
      u := TokenIsPersisted(c, R, t, n, "a", "t", 1);
    }
  }

  /** Sweeping and reading the authorization makes the order ready once more. */
  lemma OrderIsReopened(c: Config, R: iset<State>, t: State, n: nat) returns (u: State)
    requires c.jit || c.prevalidation != {}
    requires Closed(c, R) && t in R && OneOrder(c, t, n) && (t.db.authzs["a"].token == "" || HasToken(t.db.authzs["a"]))
    ensures u in R && OneOrder(c, u, n + 2) && HasStatus(u.db, "o", Ready) && HasToken(u.db.authzs["a"])
  {
    NameIsListed(c);
    u := AuthzIsSwept(c, R, t, n);
    u := AuthzIsRead(c, R, u, n + 1);
    u := ShortcutGoesThrough(c, R, u, n + 1, "a");
  }

  lemma OrderIsClaimed(c: Config, R: iset<State>, t: State, n: nat) returns (u: State)
    requires Closed(c, R) && t in R && OneOrder(c, t, n) && HasStatus(t.db, "o", Ready)
    ensures u in R && OneOrder(c, u, n + 1) && HasStatus(u.db, "o", Processing)
    ensures u.db.authzs == t.db.authzs
  {
    u := FinalizeClaims(c, R, t, n, "o", "csr");
  }

  /** From the start, some orderly run claims an order. */
  lemma ClaimIsReached(c: Config, R: iset<State>) returns (t: State)
    requires (c.jit || c.prevalidation != {}) && Closed(c, R) && Initial() in R
    ensures t in R && OneOrder(c, t, 4) && HasStatus(t.db, "o", Processing) && HasToken(t.db.authzs["a"])
  {
    t := OneOrderExists(c, R);
    t := OrderIsReopened(c, R, t, 1);
    t := OrderIsClaimed(c, R, t, 3);
  }

  lemma SomeOrderFalls(c: Config) returns (acts: seq<Action>, n: nat)
    requires c.jit || c.prevalidation != {}
    ensures Falls(c, acts, n, "o")
  {
    ReachableIsClosed(c, Initial());
    var t := ClaimIsReached(c, Reachable(c, Initial()));
    ReachableIsClosed(c, t);
    var u := OrderIsReopened(c, Reachable(c, t), t, 4);
    acts, n := RunThrough(c, t, u);
  }

  lemma RunThrough(c: Config, t: State, u: State) returns (acts: seq<Action>, n: nat)
    requires Reaches(c, Initial(), t) && Reaches(c, t, u)
    ensures Orderly(acts) && n <= |acts| && Run(c, acts[..n]) == t && Run(c, acts) == u
  {
    var xs :| Orderly(xs) && Steps(c, Initial(), xs) == t;
    var ys :| Orderly(ys) && Steps(c, t, ys) == u;
    acts, n := xs + ys, |xs|;
    StepsAppend(c, Initial(), xs, ys);
    RunIsSteps(c, xs);
    RunIsSteps(c, acts);
    assert acts[..n] == xs;
  }

  /** With promotion in one step, no order ever falls back in any run exactly when neither
      just-in-time validation nor prevalidation is configured. */
  lemma NoFallExactlyWithoutShortcuts(c: Config)
    ensures !c.jit && c.prevalidation == {} <==> forall acts, n: nat, o :: !Falls(c, acts, n, o)
  {
    if !c.jit && c.prevalidation == {} {
      forall acts, n: nat, o ensures !Falls(c, acts, n, o) {
        if Orderly(acts) && n <= |acts| && o in Run(c, acts[..n]).db.orders {
          StatusNeverFalls(c, acts, n, o);
        }
      }
    } else {
      var acts, n := SomeOrderFalls(c);
    }
  }
}
