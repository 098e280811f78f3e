/** Replay nonces (section 6.5 of RFC 8555): issue, check, expiry. */
module Nonces {
  import opened AcmeTables

  const BAD_NONCE := "urn:ietf:params:acme:error:badNonce"
  const NO_NONCE := "NONE"
  const MALFORMED_MESSAGE := "urn:ietf:params:acme:error:malformed"
  const NOT_AUTHORISED := "urn:ietf:params:acme:error:unauthorized"
  const BAD_EAB := "invalid eab credentials"
  const CHUNK := 900

  /** The nonce table with creation times. */
  type Store = map<string, int>

  datatype Config = Config(
    validity: int,
    nonceCheckDisabled: bool,
    signatureCheckDisabled: bool,
    eabCheckDisabled: bool)

  /** A message as far as this check sees it: whether it decodes, its nonce, the account
      named in it, whether the credentials behind that account are still good, and the
      verdict on the signature (None when it is good). */
  datatype Message = Message(
    decoded: bool,
    decodeError: string,
    nonce: Option<string>,
    account: string,
    eabGood: bool,
    badSignature: Option<(string, string)>)

  datatype Checked = Checked(code: nat, message: string, detail: string, account: string)

  function Stale(store: Store, before: int): set<string> {
    set n | n in store && store[n] < before
  }

  /** A message consults the nonce table. */
  predicate Consults(c: Config, m: Message, skip: bool) {
    m.decoded && !skip && !c.nonceCheckDisabled
  }

  /** The credentials behind the account are good, or need not be. */
  predicate Authorised(c: Config, m: Message, embeddedKey: bool) {
    c.eabCheckDisabled || embeddedKey || (m.eabGood && m.account != "")
  }

  /** The message is what it claims to be, its nonce aside. */
  predicate Genuine(c: Config, m: Message, embeddedKey: bool) {
    && Authorised(c, m, embeddedKey)
    && (c.signatureCheckDisabled || m.badSignature.None?)
  }

  // ---------- what one call does to the table ----------

  /** The message burns its nonce: it is consulted, in the table, and the store works. */
  predicate BurnsNonce(c: Config, store: Store, m: Message, skip: bool, raised: bool) {
    Consults(c, m, skip) && m.nonce.Some? && m.nonce.value in store && !raised
  }

  function StoreAfterCheck(c: Config, store: Store, m: Message, skip: bool, raised: bool): Store {
    if BurnsNonce(c, store, m, skip, raised) then store - {m.nonce.value} else store
  }

  predicate Admits(c: Config, store: Store, m: Message, skip: bool, embeddedKey: bool, raised: bool) {
    m.decoded && Genuine(c, m, embeddedKey) && (Consults(c, m, skip) ==> BurnsNonce(c, store, m, skip, raised))
  }

  /** The column is unique: a second insert of the same value raises. */
  function StoreAfterIssue(store: Store, nonce: string, now: int, lost: bool): Store {
    if lost || nonce in store then store else store[nonce := now]
  }

  /** A validity of zero or less switches expiry off. */
  function StoreAfterExpiry(c: Config, store: Store, timestamp: int): Store {
    if c.validity <= 0 then store else store - Stale(store, timestamp - c.validity)
  }

  class MessageServer {
    var store: Store
    const c: Config

    constructor (c: Config)
      ensures store == map[] && this.c == c
    {
      this.c := c;
      store := map[];
    }

    /** The atomic conditional delete. */
    method Consume(nonce: string) returns (deleted: nat)
      modifies this
      ensures deleted == if nonce in old(store) then 1 else 0
      ensures store == old(store) - {nonce}
    {
      deleted := 0;
      if nonce in store {
        store := store - {nonce};
        deleted := 1;
      } else {
        assert store - {nonce} == store;
      }
    }

    /** `raised`: the store raises an exception and deletes nothing. */
    method CheckNonce(nonce: Option<string>, raised: bool) returns (code: nat, message: string, detail: string)
      modifies this
      ensures code == 200 <==> nonce.Some? && nonce.value in old(store) && !raised
      ensures code == 200 || (code == 400 && message == BAD_NONCE)
      ensures code == 400 ==> store == old(store) && detail == if nonce.Some? then nonce.value else NO_NONCE
      ensures code == 200 ==> store == old(store) - {nonce.value} && message == detail == ""
    {
      if nonce.None? {
        return 400, BAD_NONCE, NO_NONCE;
      }
      var deleted := 0;
      if !raised {
        deleted := Consume(nonce.value);
        assert deleted == 0 ==> store == old(store);
      }
      if deleted > 0 {
        code, message, detail := 200, "", "";
      } else {
        code, message, detail := 400, BAD_NONCE, nonce.value;
      }
    }

    method ValidateMessageAndCheckSignature(m: Message, skip: bool, embeddedKey: bool, raised: bool)
        returns (answer: Checked)
      requires m.decoded
      modifies this
      ensures answer.code == 200 <==> Admits(c, old(store), m, skip, embeddedKey, raised)
      ensures store == StoreAfterCheck(c, old(store), m, skip, raised)
      ensures answer.code == 200 ==> answer == Checked(200, "", "", m.account)
      ensures answer.code == 400 ==> answer.message == BAD_NONCE
      ensures answer.code in {200, 400, 403}
      ensures answer.code == 403 ==>
                if !Authorised(c, m, embeddedKey) then answer == Checked(403, NOT_AUTHORISED, BAD_EAB, "")
                else m.badSignature == Some((answer.message, answer.detail)) && answer.account == m.account
      ensures answer.code == 400 <==> Consults(c, m, skip) && !BurnsNonce(c, old(store), m, skip, raised)
      // the three questions in turn: the nonce, the credentials, the signature
      ensures var nonceGood :=
                skip || c.nonceCheckDisabled || (m.nonce.Some? && m.nonce.value in old(store) && !raised);
              var trusted := c.eabCheckDisabled || embeddedKey || (m.eabGood && m.account != "");
              && (!nonceGood ==>
                    answer == Checked(400, "urn:ietf:params:acme:error:badNonce",
                                      if m.nonce.Some? then m.nonce.value else "NONE", m.account))
              && (nonceGood && !trusted ==>
                    answer == Checked(403, "urn:ietf:params:acme:error:unauthorized", "invalid eab credentials", ""))
              && (nonceGood && trusted && !c.signatureCheckDisabled && m.badSignature.Some? ==>
                    answer == Checked(403, m.badSignature.value.0, m.badSignature.value.1, m.account))
              && (nonceGood && trusted && (c.signatureCheckDisabled || m.badSignature.None?) ==>
                    answer == Checked(200, "", "", m.account))
      ensures store == if !skip && !c.nonceCheckDisabled && m.nonce.Some? && !raised then old(store) - {m.nonce.value}
                       else old(store)
    {
      var code, message, detail := 200, "", "";
      if !(skip || c.nonceCheckDisabled) {
        code, message, detail := CheckNonce(m.nonce, raised);
      }
      var account := m.account;
      if code == 200 && !c.eabCheckDisabled && !embeddedKey {
        if !m.eabGood || account == "" {
          return Checked(403, NOT_AUTHORISED, BAD_EAB, "");
        }
      }
      if code == 200 && !c.signatureCheckDisabled {
        if m.badSignature.Some? {
          code, message, detail := 403, m.badSignature.value.0, m.badSignature.value.1;
        }
      }
      answer := Checked(code, message, detail, account);
    }

    /** An accepted outer message has burned its own nonce, and only that; a refused one
        may have burned it, too, so that it cannot be sent again. */
    method Check(m: Message, skip: bool, embeddedKey: bool, raised: bool) returns (answer: Checked)
      modifies this
      ensures answer.code == 200 <==> Admits(c, old(store), m, skip, embeddedKey, raised)
      ensures store == StoreAfterCheck(c, old(store), m, skip, raised)
      ensures !m.decoded ==> answer == Checked(400, MALFORMED_MESSAGE, m.decodeError, "")
      ensures answer.code == 200 && !skip && !c.nonceCheckDisabled ==>
                m.nonce.Some? && m.nonce.value in old(store) && m.nonce.value !in store
      // accepted exactly with a nonce, credentials and a signature that are good or not asked for
      ensures answer.code == 200 <==>
                && m.decoded
                && (skip || c.nonceCheckDisabled || (m.nonce.Some? && m.nonce.value in old(store) && !raised))
                && (c.eabCheckDisabled || embeddedKey || (m.eabGood && m.account != ""))
                && (c.signatureCheckDisabled || m.badSignature.None?)
      ensures answer.code == 200 ==> answer == Checked(200, "", "", m.account)
      // and a bad signature is what a message with all else in order is refused for
      ensures m.decoded && !c.signatureCheckDisabled && m.badSignature.Some?
              && (skip || c.nonceCheckDisabled || (m.nonce.Some? && m.nonce.value in old(store) && !raised))
              && (c.eabCheckDisabled || embeddedKey || (m.eabGood && m.account != "")) ==>
                answer == Checked(403, m.badSignature.value.0, m.badSignature.value.1, m.account)
      ensures !m.decoded ==> answer.message == "urn:ietf:params:acme:error:malformed" && store == old(store)
      ensures m.decoded ==>
                store == if !skip && !c.nonceCheckDisabled && m.nonce.Some? && !raised then old(store) - {m.nonce.value}
                         else old(store)
    {
      if m.decoded {
        answer := ValidateMessageAndCheckSignature(m, skip, embeddedKey, raised);
      } else {
        answer := Checked(400, MALFORMED_MESSAGE, m.decodeError, "");
      }
    }

    /** The nonce is handed out even when it could not be stored. */
    method GenerateAndAdd(random: string, now: int, lost: bool) returns (nonce: string)
      modifies this
      ensures nonce == random && store == StoreAfterIssue(old(store), nonce, now, lost)
      ensures store == if lost || random in old(store) then old(store) else old(store)[random := now]
    {
      nonce := random;
      if !lost && nonce !in store {
        store := store[nonce := now];
      }
    }

    /** Deletes a list of nonces, 900 at a time. */
    method DeleteBulk(nonces: seq<string>) returns (total: nat)
      modifies this
      ensures store == old(store) - SetOf(nonces)
      ensures total == |old(store).Keys * SetOf(nonces)|
    {
      total := 0;
      var i := 0;
      assert old(store) - SetOf([]) == old(store) && old(store).Keys * SetOf([]) == {};
      assert nonces[..0] == [];
      while i < |nonces|
        invariant i <= |nonces|
        invariant store == old(store) - SetOf(nonces[..i])
        invariant total == |old(store).Keys * SetOf(nonces[..i])|
      {
        var j := if i + CHUNK < |nonces| then i + CHUNK else |nonces|;
        var chunk := SetOf(nonces[i..j]);
        SetOfSplit(nonces, i, j);
        DeletedSplit(old(store), SetOf(nonces[..i]), chunk);
        total := total + |store.Keys * chunk|;
        store := store - chunk;
        i := j;
      }
      assert nonces[..|nonces|] == nonces;
    }

    method SearchExpired(before: int) returns (nonces: seq<string>)
      ensures forall n :: n in nonces <==> n in Stale(store, before)
    {
      nonces := [];
      var todo := store.Keys;
      while todo != {}
        invariant todo <= store.Keys
        invariant forall n | n !in todo :: n in nonces <==> n in Stale(store, before)
        invariant forall n | n in nonces :: n in Stale(store, before)
        decreases |todo|
      {
        var n :| n in todo;
        if store[n] < before {
          nonces := nonces + [n];
        }
        todo := todo - {n};
      }
    }

    method ExpireNonces(timestamp: int) returns (report: seq<string>)
      modifies this
      ensures store == StoreAfterExpiry(c, old(store), timestamp)
      ensures forall n :: n in report <==> n in old(store) && n !in store
      ensures forall n | n in store :: n in old(store) && store[n] == old(store)[n]
      ensures forall n | n in old(store) ::
                n in report <==> c.validity > 0 && old(store)[n] < timestamp - c.validity
    {
      if c.validity <= 0 {
        return [];
      }
      report := SearchExpired(timestamp - c.validity);
      if report != [] {
        var _ := DeleteBulk(report);
      } else {
        assert Stale(old(store), timestamp - c.validity) == {};
      }
      assert SetOf(report) == Stale(old(store), timestamp - c.validity);
    }
  }

  function SetOf(nonces: seq<string>): set<string> {
    set n | n in nonces
  }

  lemma SetOfSplit(nonces: seq<string>, i: nat, j: nat)
    requires i <= j <= |nonces|
    ensures SetOf(nonces[..j]) == SetOf(nonces[..i]) + SetOf(nonces[i..j])
  {
    assert nonces[..j] == nonces[..i] + nonces[i..j];
  }

  lemma DeletedSplit(store: Store, done: set<string>, chunk: set<string>)
    ensures (store - done) - chunk == store - (done + chunk)
    ensures |store.Keys * (done + chunk)| == |store.Keys * done| + |(store - done).Keys * chunk|
  {
    assert (store - done).Keys == store.Keys - done;
    assert store.Keys * (done + chunk) == store.Keys * done + (store.Keys - done) * chunk;
  }

  // ---------- many messages and sweeps at once ----------

  datatype Event =
    | Issued(nonce: string, stored: bool)
    | Burned(pid: nat, nonce: string)
    | SweptOut(nonces: set<string>)
    | Accepted(pid: nat, nonce: string)
    | Refused(pid: nat, nonce: string)

  /** `open` are the outer messages whose nonce was good and whose signature is still
      being checked; `found` are the lists of sweeps between their search and their delete. */
  datatype State = State(store: Store, open: map<nat, string>, found: map<nat, set<string>>, log: seq<Event>)

  datatype Action =
    | Issue(nonce: string, at: int, lost: bool)
    | Present(pid: nat, nonce: string)
    | Judge(pid: nat, genuine: bool)
    | Search(pid: nat, before: int)
    | Delete(pid: nat)

  function Step(s: State, a: Action): State {
    match a
    case Issue(n, at, lost) =>
      // random values do not repeat
      if Tally(s.log, Issues, n) > 0 then s
      else s.(store := if lost then s.store else s.store[n := at], log := s.log + [Issued(n, !lost)])
    case Present(pid, n) =>
      if pid in s.open || n !in s.store then s
      else s.(store := s.store - {n}, open := s.open[pid := n], log := s.log + [Burned(pid, n)])
    case Judge(pid, genuine) =>
      if pid !in s.open then s
      else s.(open := s.open - {pid},
              log := s.log + [if genuine then Accepted(pid, s.open[pid]) else Refused(pid, s.open[pid])])
    case Search(pid, before) =>
      if pid in s.found then s else s.(found := s.found[pid := Stale(s.store, before)])
    case Delete(pid) =>
      if pid !in s.found then s
      else s.(store := s.store - s.found[pid], found := s.found - {pid},
              log := s.log + [SweptOut(s.store.Keys * s.found[pid])])
  }

  function Run(acts: seq<Action>): State {
    if acts == [] then State(map[], map[], map[], [])
    else Step(Run(acts[..|acts| - 1]), acts[|acts| - 1])
  }

  datatype Fate = Issues | Losses | Burns | Sweeps | Accepts | Refusals

  predicate Says(e: Event, fate: Fate, n: string) {
    match fate
    case Issues => e.Issued? && e.nonce == n
    case Losses => e.Issued? && e.nonce == n && !e.stored
    case Burns => e.Burned? && e.nonce == n
    case Sweeps => e.SweptOut? && n in e.nonces
    case Accepts => e.Accepted? && e.nonce == n
    case Refusals => e.Refused? && e.nonce == n
  }

  /** How often something happened to a nonce. */
  function Tally(log: seq<Event>, fate: Fate, n: string): nat {
    if log == [] then 0
    else Tally(log[..|log| - 1], fate, n) + (if Says(log[|log| - 1], fate, n) then 1 else 0)
  }

  function Outstanding(s: State, n: string): nat {
    if n in s.store then 1 else 0
  }

  /** The messages that hold a nonce and are not judged yet. */
  function OpenFor(s: State, n: string): set<nat> {
    set pid | pid in s.open && s.open[pid] == n
  }

  ghost predicate Balanced(s: State, n: string) {
    && Tally(s.log, Issues, n) <= 1
    && Tally(s.log, Issues, n)
         == Outstanding(s, n) + Tally(s.log, Burns, n) + Tally(s.log, Sweeps, n) + Tally(s.log, Losses, n)
    && Tally(s.log, Burns, n) == |OpenFor(s, n)| + Tally(s.log, Accepts, n) + Tally(s.log, Refusals, n)
  }

  lemma OneMoreEvent(log: seq<Event>, e: Event, n: string)
    ensures forall fate ::
              Tally(log + [e], fate, n) == Tally(log, fate, n) + (if Says(e, fate, n) then 1 else 0)
  {
    assert (log + [e])[..|log|] == log;
  }

  lemma Opened(s: State, t: State, n: string, pid: nat, m: string)
    requires pid !in s.open && t.open == s.open[pid := m]
    ensures |OpenFor(t, n)| == |OpenFor(s, n)| + (if m == n then 1 else 0)
  {
    assert OpenFor(t, n) == OpenFor(s, n) + (if m == n then {pid} else {});
  }

  lemma Judged(s: State, t: State, n: string, pid: nat)
    requires pid in s.open && t.open == s.open - {pid}
    ensures |OpenFor(t, n)| == |OpenFor(s, n)| - (if s.open[pid] == n then 1 else 0)
  {
    assert OpenFor(t, n) == OpenFor(s, n) - (if s.open[pid] == n then {pid} else {});
  }

  /** A step that logs one event and leaves the open messages alone. */
  lemma LogBalances(s: State, t: State, e: Event, n: string)
    requires Balanced(s, n) && t.log == s.log + [e] && t.open == s.open
    requires match e
             case Issued(m, stored) =>
               && Tally(s.log, Issues, m) == 0
               && Outstanding(t, n) == Outstanding(s, n) + (if m == n && stored then 1 else 0)
             case SweptOut(ms) => Outstanding(t, n) == Outstanding(s, n) - (if n in ms then 1 else 0)
             case _ => false
    ensures Balanced(t, n)
  {
    OneMoreEvent(s.log, e, n);
    assert OpenFor(t, n) == OpenFor(s, n);
  }

  lemma PresentBalances(s: State, pid: nat, m: string, n: string)
    requires Balanced(s, n)
    ensures Balanced(Step(s, Present(pid, m)), n)
  {
    var t := Step(s, Present(pid, m));
    if t != s {
      OneMoreEvent(s.log, Burned(pid, m), n);
      Opened(s, t, n, pid, m);
    }
  }

  lemma JudgeBalances(s: State, pid: nat, genuine: bool, n: string)
    requires Balanced(s, n)
    ensures Balanced(Step(s, Judge(pid, genuine)), n)
  {
    var t := Step(s, Judge(pid, genuine));
    if t != s {
      OneMoreEvent(s.log, t.log[|s.log|], n);
      Judged(s, t, n, pid);
    }
  }

  lemma StepBalances(s: State, a: Action, n: string)
    requires Balanced(s, n)
    ensures Balanced(Step(s, a), n)
  {
    var t := Step(s, a);
    match a
    case Issue(m, _, lost) =>
      if Tally(s.log, Issues, m) == 0 {
        LogBalances(s, t, Issued(m, !lost), n);
      }
    case Present(pid, m) => PresentBalances(s, pid, m, n);
    case Judge(pid, genuine) => JudgeBalances(s, pid, genuine, n);
    case Search(_, _) => assert OpenFor(t, n) == OpenFor(s, n);
    case Delete(pid) =>
      if pid in s.found {
        LogBalances(s, t, SweptOut(s.store.Keys * s.found[pid]), n);
      }
  }

  /** Conservation: over every interleaving of issues, messages and sweeps - stale sweep
      lists included - a nonce is issued at most once, and it is then either outstanding,
      burned, swept or was never stored; and a burned nonce went to exactly one message. */
  lemma {:induction false} NoncesAreConserved(acts: seq<Action>, n: string)
    ensures var s := Run(acts);
            && Tally(s.log, Issues, n) <= 1
            && Tally(s.log, Issues, n)
                 == Outstanding(s, n) + Tally(s.log, Burns, n) + Tally(s.log, Sweeps, n) + Tally(s.log, Losses, n)
            && Tally(s.log, Burns, n) == |OpenFor(s, n)| + Tally(s.log, Accepts, n) + Tally(s.log, Refusals, n)
    ensures Balanced(Run(acts), n)
  {
    if acts != [] {
      NoncesAreConserved(acts[..|acts| - 1], n);
      StepBalances(Run(acts[..|acts| - 1]), acts[|acts| - 1], n);
    } else {
      assert OpenFor(Run(acts), n) == {};
    }
  }

  lemma {:induction false} TallyOfPrefix(log: seq<Event>, k: nat, fate: Fate, n: string)
    requires k <= |log|
    ensures Tally(log[..k], fate, n) <= Tally(log, fate, n)
    ensures k < |log| && Says(log[k], fate, n) ==> Tally(log[..k], fate, n) < Tally(log, fate, n)
  {
    var init := log[..|log| - (if log == [] then 0 else 1)];
    if k == |log| {
      assert log[..k] == log;
    } else {
      assert init[..k] == log[..k];
      TallyOfPrefix(init, k, fate, n);
      if k == |log| - 1 {
        assert log[..k] == init;
      }
    }
  }

  lemma SaidTwice(log: seq<Event>, fate: Fate, n: string, i: nat, j: nat)
    requires i < j < |log| && Says(log[i], fate, n) && Says(log[j], fate, n)
    ensures Tally(log, fate, n) >= 2
  {
    TallyOfPrefix(log, j, fate, n);
    TallyOfPrefix(log[..j], i, fate, n);
    assert log[..j][i] == log[i];
  }

  ghost predicate Before(log: seq<Event>, e: Event, i: nat) {
    exists j :: 0 <= j < i <= |log| && log[j] == e
  }

  /** What must have happened before an event. */
  ghost predicate Caused(log: seq<Event>, i: nat)
    requires i < |log|
  {
    match log[i]
    case Burned(_, n) => Before(log, Issued(n, true), i)
    case Accepted(pid, n) => Before(log, Burned(pid, n), i)
    case Refused(pid, n) => Before(log, Burned(pid, n), i)
    case _ => true
  }

  ghost predicate Traced(s: State) {
    && (forall n | n in s.store :: Before(s.log, Issued(n, true), |s.log|))
    && (forall pid | pid in s.open :: Before(s.log, Burned(pid, s.open[pid]), |s.log|))
    && (forall i | 0 <= i < |s.log| :: Caused(s.log, i))
  }

  lemma BeforeGrows(log: seq<Event>, more: seq<Event>, e: Event, i: nat, k: nat)
    requires Before(log, e, i) && log <= more && i <= k <= |more|
    ensures Before(more, e, k)
  {
    var j :| 0 <= j < i <= |log| && log[j] == e;
    assert more[j] == e;
  }

  lemma CausedGrows(log: seq<Event>, more: seq<Event>, i: nat)
    requires i < |log| && log <= more && Caused(log, i)
    ensures Caused(more, i)
  {
    match log[i]
    case Burned(_, n) => BeforeGrows(log, more, Issued(n, true), i, i);
    case Accepted(pid, n) => BeforeGrows(log, more, Burned(pid, n), i, i);
    case Refused(pid, n) => BeforeGrows(log, more, Burned(pid, n), i, i);
    case _ =>
  }

  lemma StepStores(s: State, a: Action, n: string)
    requires Traced(s) && n in Step(s, a).store
    ensures Before(Step(s, a).log, Issued(n, true), |Step(s, a).log|)
  {
    var t := Step(s, a);
    if n in s.store {
      BeforeGrows(s.log, t.log, Issued(n, true), |s.log|, |t.log|);
    } else {
      assert t.log[|s.log|] == Issued(n, true);
    }
  }

  lemma StepOpens(s: State, a: Action, pid: nat)
    requires Traced(s) && pid in Step(s, a).open
    ensures Before(Step(s, a).log, Burned(pid, Step(s, a).open[pid]), |Step(s, a).log|)
  {
    var t := Step(s, a);
    if pid in s.open {
      BeforeGrows(s.log, t.log, Burned(pid, s.open[pid]), |s.log|, |t.log|);
    } else {
      assert t.log[|s.log|] == Burned(pid, t.open[pid]);
    }
  }

  lemma StepCauses(s: State, a: Action)
    requires Traced(s) && |Step(s, a).log| > |s.log|
    ensures Caused(Step(s, a).log, |s.log|)
  {
    var t, i := Step(s, a), |s.log|;
    match t.log[i]
    case Burned(_, n) => BeforeGrows(s.log, t.log, Issued(n, true), i, i);
    case Accepted(pid, n) => BeforeGrows(s.log, t.log, Burned(pid, n), i, i);
    case Refused(pid, n) => BeforeGrows(s.log, t.log, Burned(pid, n), i, i);
    case _ =>
  }

  lemma StepTraces(s: State, a: Action)
    requires Traced(s)
    ensures Traced(Step(s, a))
  {
    var t := Step(s, a);
    forall n | n in t.store ensures Before(t.log, Issued(n, true), |t.log|) {
      StepStores(s, a, n);
    }
    forall pid | pid in t.open ensures Before(t.log, Burned(pid, t.open[pid]), |t.log|) {
      StepOpens(s, a, pid);
    }
    forall i | 0 <= i < |t.log| ensures Caused(t.log, i) {
      if i < |s.log| {
        CausedGrows(s.log, t.log, i);
      } else {
        StepCauses(s, a);
      }
    }
  }

  lemma {:induction false} RunTraces(acts: seq<Action>)
    ensures Traced(Run(acts))
  {
    if acts != [] {
      RunTraces(acts[..|acts| - 1]);
      StepTraces(Run(acts[..|acts| - 1]), acts[|acts| - 1]);
    }
  }

  /** Every accepted outer message had burned its own nonce before, which was issued and
      stored before that; no other message is ever accepted with the same nonce, and the
      nonce is gone for good. */
  lemma NoNonceIsAcceptedTwice(acts: seq<Action>, i: nat)
    requires i < |Run(acts).log| && Run(acts).log[i].Accepted?
    ensures var log := Run(acts).log;
            var (pid, n) := (log[i].pid, log[i].nonce);
            && (exists j, k :: 0 <= k < j < i && log[j] == Burned(pid, n) && log[k] == Issued(n, true))
            && (forall j | 0 <= j < |log| && j != i :: !(log[j].Accepted? && log[j].nonce == n))
            && n !in Run(acts).store
  {
    var s := Run(acts);
    var (pid, n) := (s.log[i].pid, s.log[i].nonce);
    NoncesAreConserved(acts, n);
    RunTraces(acts);
    assert Caused(s.log, i);
    var j :| 0 <= j < i && s.log[j] == Burned(pid, n);
    assert Caused(s.log, j);
    var k :| 0 <= k < j && s.log[k] == Issued(n, true);
    assert Says(s.log[i], Accepts, n) && Says(s.log[j], Burns, n);
    TallyOfPrefix(s.log, i, Accepts, n);
    TallyOfPrefix(s.log, j, Burns, n);
    forall m | 0 <= m < |s.log| && m != i ensures !(s.log[m].Accepted? && s.log[m].nonce == n) {
      if s.log[m].Accepted? && s.log[m].nonce == n {
        SaidTwice(s.log, Accepts, n, if i < m then i else m, if i < m then m else i);
        assert false;
      }
    }
  }

  // ---------- each call as steps of the protocol ----------

  function Steps(s: State, acts: seq<Action>): State {
    if acts == [] then s else Step(Steps(s, acts[..|acts| - 1]), acts[|acts| - 1])
  }

  lemma TwoSteps(s: State, a: Action, b: Action)
    ensures Steps(s, [a, b]) == Step(Step(s, a), b)
  {
    assert [a, b][..1] == [a] && [a][..0] == [];
    assert Steps(s, [a]) == Step(Steps(s, []), a);
  }

  /** A message whose nonce is consulted: presenting the nonce and judging the message leave
      the table of the sequential check, burn the nonce exactly when it does, and accept the
      message exactly when it is answered with 200. */
  lemma CheckIsARun(c: Config, s: State, m: Message, embeddedKey: bool, pid: nat)
    requires Consults(c, m, false) && m.nonce.Some? && pid !in s.open
    ensures var n := m.nonce.value;
            var t := Steps(s, [Present(pid, n), Judge(pid, Genuine(c, m, embeddedKey))]);
            && t.store == StoreAfterCheck(c, s.store, m, false, false)
            && t.open == s.open && t.found == s.found
            && t.log == s.log + (if !BurnsNonce(c, s.store, m, false, false) then []
                                 else if Admits(c, s.store, m, false, embeddedKey, false) then
                                   [Burned(pid, n), Accepted(pid, n)]
                                 else [Burned(pid, n), Refused(pid, n)])
  {
    var n := m.nonce.value;
    TwoSteps(s, Present(pid, n), Judge(pid, Genuine(c, m, embeddedKey)));
    assert n in s.store ==> s.open[pid := n] - {pid} == s.open;
  }

  /** A nonce that was never issued before. */
  lemma IssueIsARun(s: State, nonce: string, now: int, lost: bool)
    requires Balanced(s, nonce) && Tally(s.log, Issues, nonce) == 0
    ensures var t := Step(s, Issue(nonce, now, lost));
            t.store == StoreAfterIssue(s.store, nonce, now, lost) && t.log == s.log + [Issued(nonce, !lost)]
  {
  }

  /** A sweep without anything in between its search and its delete. */
  lemma ExpiryIsARun(c: Config, s: State, timestamp: int, pid: nat)
    requires c.validity > 0 && pid !in s.found
    ensures var t := Steps(s, [Search(pid, timestamp - c.validity), Delete(pid)]);
            && t.store == StoreAfterExpiry(c, s.store, timestamp) && t.open == s.open && t.found == s.found
            && t.log == s.log + [SweptOut(Stale(s.store, timestamp - c.validity))]
  {
    var stale := Stale(s.store, timestamp - c.validity);
    TwoSteps(s, Search(pid, timestamp - c.validity), Delete(pid));
    assert s.found[pid := stale] - {pid} == s.found;
    assert s.store.Keys * stale == stale;
  }
}
