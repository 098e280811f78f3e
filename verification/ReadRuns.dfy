/** The read of an authorization by the sequential server is one of the interleaved runs. */
module ReadRuns {
  import opened AcmeTables
  import opened Binding
  import opened OrderMachine
  import opened Reaching
  import opened OrderLife
  import opened StatusFalls
  import C = ChallengeSets

  // ---------- the two forms of the tables ----------

  function RowMap(rows: seq<C.Challenge>): map<string, ChallengeRow> {
    if rows == [] then map[]
    else RowMap(rows[..|rows| - 1])[rows[|rows| - 1].name := rows[|rows| - 1].row]
  }

  predicate DistinctNames(rows: seq<C.Challenge>) {
    forall i, j | 0 <= i < j < |rows| :: rows[i].name != rows[j].name
  }

  ghost predicate Represents(d: Tables, st: C.Store) {
    && d.authzs == st.authzs
    && (forall o :: o in d.orders <==> o in st.orders)
    && (forall o | o in d.orders :: d.orders[o].status == st.orders[o])
    && d.challenges == RowMap(st.challenges) && DistinctNames(st.challenges)
  }

  lemma {:induction false} RowMapFacts(rows: seq<C.Challenge>)
    requires DistinctNames(rows)
    ensures forall i | 0 <= i < |rows| :: rows[i].name in RowMap(rows) && RowMap(rows)[rows[i].name] == rows[i].row
    ensures forall x | x in RowMap(rows) :: exists i :: 0 <= i < |rows| && rows[i].name == x
  {
    if rows != [] {
      RowMapFacts(rows[..|rows| - 1]);
    }
  }

  lemma RowMapAppend(rows: seq<C.Challenge>, one: C.Challenge)
    ensures RowMap(rows + [one]) == RowMap(rows)[one.name := one.row]
  {
    assert (rows + [one])[..|rows|] == rows;
  }

  lemma {:induction false} RowsOfFacts(rows: seq<C.Challenge>, a: string)
    ensures C.RowsOf(rows, a) != [] <==> exists i :: 0 <= i < |rows| && rows[i].row.authz == a
  {
    if rows != [] {
      RowsOfFacts(rows[..|rows| - 1], a);
    }
  }

  lemma KnownChallenges(d: Tables, st: C.Store, a: string)
    requires Represents(d, st)
    ensures HasChallenges(d, a) <==> C.RowsOf(st.challenges, a) != []
  {
    RowMapFacts(st.challenges);
    RowsOfFacts(st.challenges, a);
    if HasChallenges(d, a) {
      var x :| x in d.challenges && d.challenges[x].authz == a;
      var i :| 0 <= i < |st.challenges| && st.challenges[i].name == x;
      assert st.challenges[i].row.authz == a;
    }
    if i :| 0 <= i < |st.challenges| && st.challenges[i].row.authz == a {
      assert d.challenges[st.challenges[i].name].authz == a;
    }
  }

  // ---------- the steps of a read ----------

  /** Both models are configured alike. */
  ghost predicate SameConfig(c: Config, k: C.Config, out: C.Outside) {
    && (c.jit <==> k.jit && k.dnsPersist) && c.rules.emailRewrite == k.emailRewrite
    && forall list, v :: out.listed(list, v) ==> list in c.prevalidation
  }

  lemma ReadTakesToken(c: Config, R: iset<State>, t: State, st: C.Store, pid: nat, k: C.Config, a: string,
                       out: C.Outside)
    returns (u: State)
    requires Closed(c, R) && t in R && Fresh(t, pid) && Represents(t.db, st)
    requires a in st.authzs && st.authzs[a].order in t.disclosed
    ensures u in R && Represents(u.db, C.WithToken(k, st, a, out)) && Alive(u, pid, Fetch(a, GDetails))
  {
    if Strip(st.authzs[a].token) != "" {
      u := TokenIsThere(c, R, t, pid, a);
    } else {
      u := TokenIsPersisted(c, R, t, pid, a, out.token, out.now + k.validity);
    }
  }

  lemma ReadLooks(c: Config, R: iset<State>, t: State, pid: nat, k: C.Config, a: string, out: C.Outside)
    returns (u: State)
    requires Closed(c, R) && t in R && Alive(t, pid, Fetch(a, GDetails)) && a in t.db.authzs && SameConfig(c, k, out)
    ensures u in R && u.db == t.db
    ensures OnlyMoved(t, u, pid, Fetch(a,
              if C.JustInTime(k, t.db.authzs[a], out) then GMarkAuthz(true)
              else if C.Prevalidated(k, t.db.authzs[a], out) then GMarkAuthz(false)
              else GChallenges))
  {
    u := GoFetch(c, R, t, pid, Fetch(a, GDetails),
                 CALM.(verdict := if out.jitPasses then Passed else Failed,
                       accepted := C.OnList(k, t.db.authzs[a].identifier, out)));
  }

  lemma MarkedIsRepresented(d: Tables, st: C.Store, a: string)
    requires Represents(d, st) && a in st.authzs
    ensures Represents(SetOrder(SetAuthz(d, a, Valid), d.authzs[a].order, Ready), C.MarkedValid(st, a))
  {
  }

  lemma ReadMarks(c: Config, R: iset<State>, t: State, st: C.Store, pid: nat, a: string, jit: bool) returns (u: State)
    requires Closed(c, R) && t in R && Alive(t, pid, Fetch(a, GMarkAuthz(jit)))
    requires a in st.authzs && Represents(t.db, st)
    ensures u in R && Represents(u.db, C.MarkedValid(st, a))
    ensures Alive(u, pid, Fetch(a, if jit then GEnd else GChallenges))
  {
    u := ShortcutMarksAuthz(c, R, t, pid, a, jit);
    u := ShortcutMarksOrder(c, R, u, pid, a, jit);
    MarkedIsRepresented(t.db, st, a);
  }

  /** Up to the challenge set. */
  lemma ReadTakesShortcut(c: Config, R: iset<State>, t: State, st: C.Store, pid: nat, k: C.Config, a: string,
                          out: C.Outside)
    returns (u: State)
    requires Closed(c, R) && t in R && Alive(t, pid, Fetch(a, GDetails)) && SameConfig(c, k, out)
    requires a in st.authzs && Represents(t.db, st)
    ensures u in R && Represents(u.db, C.Shortcut(k, st, a, out))
    ensures Alive(u, pid, Fetch(a, if C.JustInTime(k, st.authzs[a], out) then GEnd else GChallenges))
  {
    u := ReadLooks(c, R, t, pid, k, a, out);
    if C.JustInTime(k, st.authzs[a], out) {
      u := ReadMarks(c, R, u, st, pid, a, true);
    } else if C.Prevalidated(k, st.authzs[a], out) {
      u := ReadMarks(c, R, u, st, pid, a, false);
    }
  }

  lemma ReadPlans(c: Config, R: iset<State>, t: State, pid: nat, a: string, kinds: seq<string>) returns (u: State)
    requires Closed(c, R) && t in R && Alive(t, pid, Fetch(a, GChallenges)) && a in t.db.authzs
    ensures u in R && u.db == t.db
    ensures OnlyMoved(t, u, pid, Fetch(a, if HasChallenges(t.db, a) then GEnd else GCreate(kinds)))
  {
    u := GoFetch(c, R, t, pid, Fetch(a, GChallenges), CALM.(kinds := kinds));
  }

  /** The store with the first n planned challenges. */
  function WithRows(st: C.Store, rows: seq<C.Challenge>): C.Store {
    st.(challenges := st.challenges + rows)
  }

  /** The names are random: distinct, and none of them in use. */
  predicate FreshNames(st: C.Store, names: nat -> string, n: nat) {
    && (forall i, j | 0 <= i < j < n :: names(i) != names(j))
    && forall i, j | 0 <= i < n && 0 <= j < |st.challenges| :: st.challenges[j].name != names(i)
  }

  lemma DistinctAppend(rows: seq<C.Challenge>, one: C.Challenge)
    requires DistinctNames(rows) && forall j | 0 <= j < |rows| :: rows[j].name != one.name
    ensures DistinctNames(rows + [one]) && one.name !in RowMap(rows)
    ensures RowMap(rows + [one]) == RowMap(rows)[one.name := one.row]
  {
    RowMapFacts(rows);
    RowMapAppend(rows, one);
  }

  lemma OneMoreRow(d: Tables, st: C.Store, rows: seq<C.Challenge>, n: nat, names: nat -> string)
    requires n < |rows| && FreshNames(st, names, |rows|) && forall i | 0 <= i < |rows| :: rows[i].name == names(i)
    requires Represents(d, WithRows(st, rows[..n]))
    ensures names(n) !in d.challenges
    ensures Represents(d.(challenges := d.challenges[rows[n].name := rows[n].row]), WithRows(st, rows[..n + 1]))
  {
    var before := st.challenges + rows[..n];
    forall j | 0 <= j < |before| ensures before[j].name != names(n) {
      if j >= |st.challenges| {
        assert before[j] == rows[j - |st.challenges|];
      }
    }
    DistinctAppend(before, rows[n]);
    assert st.challenges + rows[..n + 1] == before + [rows[n]];
  }

  lemma {:induction false} ReadCreates(c: Config, R: iset<State>, t: State, st: C.Store, pid: nat, a: string,
                                       kinds: seq<string>, token: string, names: nat -> string, n: nat, m: nat)
    returns (u: State)
    requires Closed(c, R) && t in R && n <= m <= |kinds| && Alive(t, pid, Fetch(a, GCreate(kinds[n..])))
    requires a in st.authzs && Strip(st.authzs[a].token) == token && FreshNames(st, names, |kinds|)
    requires Represents(t.db, WithRows(st, C.NewChallenges(a, kinds, token, names)[..n]))
    ensures u in R && Represents(u.db, WithRows(st, C.NewChallenges(a, kinds, token, names)[..m]))
    decreases m - n
  {
    if n == m {
      u := t;
    } else {
      var rows := C.NewChallenges(a, kinds, token, names);
      OneMoreRow(t.db, st, rows, n, names);
      assert kinds[n..][1..] == kinds[n + 1..] && kinds[n..][0] == kinds[n];
      u := ChallengeIsAdded(c, R, t, pid, a, kinds[n..], names(n));
      u := ReadCreates(c, R, u, st, pid, a, kinds, token, names, n + 1, m);
    }
  }

  /** The challenge set of a read that is not cut short. */
  lemma ReadFinishes(c: Config, R: iset<State>, t: State, st: C.Store, pid: nat, a: string, kinds: seq<string>,
                     token: string, out: C.Outside) returns (u: State)
    requires Closed(c, R) && t in R && Alive(t, pid, Fetch(a, GChallenges)) && Represents(t.db, st)
    requires a in st.authzs && Strip(st.authzs[a].token) == token && FreshNames(st, out.names, |kinds|)
    ensures u in R
    ensures C.RowsOf(st.challenges, a) != [] ==> Represents(u.db, st)
    ensures C.RowsOf(st.challenges, a) == [] ==>
              var rows := C.NewChallenges(a, kinds, token, out.names);
              Represents(u.db, WithRows(st, if |rows| <= out.inserts then rows else rows[..out.inserts]))
  {
    var rows := C.NewChallenges(a, kinds, token, out.names);
    KnownChallenges(t.db, st, a);
    u := ReadPlans(c, R, t, pid, a, kinds);
    if C.RowsOf(st.challenges, a) == [] {
      assert kinds[0..] == kinds && rows[..|rows|] == rows && WithRows(st, rows[..0]) == st;
      var m := if |rows| <= out.inserts then |rows| else out.inserts;
      u := ReadCreates(c, R, u, st, pid, a, kinds, token, out.names, 0, m);
    }
  }

  /** A sequential read, seen from the store that its shortcut leaves. */
  lemma ReadInParts(k: C.Config, st: C.Store, a: string, out: C.Outside)
    requires a in st.authzs && C.Random(C.Read(a, out))
    ensures var first := C.WithToken(k, st, a, out);
            var mid, kinds := C.Shortcut(k, first, a, out), C.KindsFor(k, st.authzs[a].identifier);
            var rows := C.NewChallenges(a, kinds, C.TokenOf(st, a, out), out.names);
            && a in mid.authzs && Strip(mid.authzs[a].token) == C.TokenOf(st, a, out)
            && mid.challenges == st.challenges && first.authzs[a].identifier == st.authzs[a].identifier
            && C.AfterRead(k, st, a, out) ==
                 if C.JustInTime(k, st.authzs[a], out) || C.RowsOf(st.challenges, a) != [] then mid
                 else WithRows(mid, if |rows| <= out.inserts then rows else rows[..out.inserts])
  {
    assert st.challenges + [] == st.challenges;
  }

  /** From every state that represents a store, the machine reaches one that represents the
      store after a sequential read: token, shortcut and challenge set, a database failure
      in the middle included. */
  lemma ReadIsARun(c: Config, s: State, st: C.Store, pid: nat, k: C.Config, a: string, out: C.Outside)
    returns (u: State)
    requires Fresh(s, pid) && Represents(s.db, st) && SameConfig(c, k, out)
    requires a in st.authzs && st.authzs[a].order in s.disclosed
    requires C.Random(C.Read(a, out)) && FreshNames(st, out.names, |C.KindsFor(k, st.authzs[a].identifier)|)
    ensures Reaches(c, s, u) && Represents(u.db, C.AfterRead(k, st, a, out))
  {
    ReachableIsClosed(c, s);
    var R, first := Reachable(c, s), C.WithToken(k, st, a, out);
    u := ReadTakesToken(c, R, s, st, pid, k, a, out);
    u := ReadTakesShortcut(c, R, u, first, pid, k, a, out);
    ReadInParts(k, st, a, out);
    if !C.JustInTime(k, st.authzs[a], out) {
      u := ReadFinishes(c, R, u, C.Shortcut(k, first, a, out), pid, a, C.KindsFor(k, st.authzs[a].identifier),
                        C.TokenOf(st, a, out), out);
    }
  }
}
