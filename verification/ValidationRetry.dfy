/** Validation of one challenge: retries, and the states it leaves behind. */
module ValidationRetry {
  import opened AcmeTables

  const RETRIED_KINDS := {"dns-01", "dns-persist-01", "email-reply-00"}

  /** One answer of a validator. */
  datatype Answer = Says(success: bool, invalid: bool) | Raises

  predicate Decisive(a: Answer) {
    a.Raises? || a.success || a.invalid
  }

  predicate Passes(a: Answer) {
    a.Says? && a.success && !a.invalid
  }

  function Attempts(kind: string): nat {
    if kind in RETRIED_KINDS then 5 else 1
  }

  /** How many calls it takes, counted from call k: up to the first decisive answer, or
      all that are left. */
  function Calls(answers: nat -> Answer, k: nat, attempts: nat): (n: nat)
    requires k < attempts
    ensures k < n <= attempts
    decreases attempts - k
  {
    if Decisive(answers(k)) || k + 1 == attempts then k + 1 else Calls(answers, k + 1, attempts)
  }

  /** The first decisive answer, or the last answer forced invalid. */
  function Verdict(kind: string, answers: nat -> Answer): Answer {
    var last := answers(Calls(answers, 0, Attempts(kind)) - 1);
    if Decisive(last) then last else Says(false, true)
  }

  lemma {:induction false} CallsStopAtTheFirst(answers: nat -> Answer, k: nat, attempts: nat)
    requires k < attempts
    ensures var n := Calls(answers, k, attempts);
            && (forall i | k <= i < n - 1 :: !Decisive(answers(i)))
            && (Decisive(answers(n - 1)) || n == attempts)
    decreases attempts - k
  {
    if !(Decisive(answers(k)) || k + 1 == attempts) {
      CallsStopAtTheFirst(answers, k + 1, attempts);
    }
  }

  /** A validation always decides. It passes exactly when some answer within the attempts
      passes and every answer before it was undecided. */
  lemma ValidationDecides(kind: string, answers: nat -> Answer)
    ensures Decisive(Verdict(kind, answers))
    ensures Passes(Verdict(kind, answers)) <==>
              exists i :: 0 <= i < Attempts(kind) && Passes(answers(i))
                && forall j | 0 <= j < i :: !Decisive(answers(j))
  {
    var n := Calls(answers, 0, Attempts(kind));
    CallsStopAtTheFirst(answers, 0, Attempts(kind));
    if Passes(Verdict(kind, answers)) {
      assert Passes(answers(n - 1));
    }
    if i :| 0 <= i < Attempts(kind) && Passes(answers(i)) && forall j | 0 <= j < i :: !Decisive(answers(j)) {
      assert i <= n - 1;
      assert n - 1 <= i;
    }
  }

  /** What the configured source address checks say when validation is disabled. */
  datatype SourceCheck = NotConfigured | Checked(success: bool, invalid: bool)

  /** Everything one validation meets outside. */
  datatype Outside = Outside(
    disabled: bool,
    source: SourceCheck,
    prepared: bool,           // the challenge data can be read and its type is supported
    answers: nat -> Answer)

  function Settled(db: Tables, ch: string, status: Status): Tables
    requires ch in db.challenges
  {
    SetAuthz(SetChallenge(db, ch, status), db.challenges[ch].authz, status)
  }

  /** Both rows of a finished validation say the same. */
  predicate Agree(db: Tables, ch: string, status: Status) {
    && ch in db.challenges && db.challenges[ch].status == status
    && db.challenges[ch].authz in db.authzs && db.authzs[db.challenges[ch].authz].status == status
  }

  /** The validator decides, or the failing preparation does. */
  predicate Succeeds(kind: string, out: Outside) {
    if out.disabled then out.source.NotConfigured? || out.source.success
    else out.prepared && Passes(Verdict(kind, out.answers))
  }

  /** With validation disabled, a failed source check that is not final changes nothing. */
  predicate LeftOpen(out: Outside) {
    out.disabled && out.source.Checked? && !out.source.success && !out.source.invalid
  }

  /** Tables equal up to the statuses of one challenge and its authorization. */
  predicate OnlyThese(d: Tables, e: Tables, ch: string)
    requires ch in d.challenges
  {
    && e.orders == d.orders && e.certs == d.certs
    && e.challenges.Keys == d.challenges.Keys && e.authzs.Keys == d.authzs.Keys
    && (forall x | x in d.challenges ::
          if x == ch then e.challenges[x] == d.challenges[x].(status := e.challenges[x].status)
          else e.challenges[x] == d.challenges[x])
    && (forall a | a in d.authzs ::
          if a == d.challenges[ch].authz then e.authzs[a] == d.authzs[a].(status := e.authzs[a].status)
          else e.authzs[a] == d.authzs[a])
  }

  /** With validation enabled, a challenge passes exactly when its preparation and one of its
      attempts do, and no attempt before that gave a decision. */
  lemma PassesExactly(kind: string, out: Outside)
    ensures Succeeds(kind, out) <==>
              if out.disabled then out.source == NotConfigured || (out.source.Checked? && out.source.success)
              else
                && out.prepared
                && exists i :: 0 <= i < (if kind in {"dns-01", "dns-persist-01", "email-reply-00"} then 5 else 1)
                     && out.answers(i) == Says(true, false)
                     && forall j | 0 <= j < i :: out.answers(j) == Says(false, false)
  {
    ValidationDecides(kind, out.answers);
    forall a: Answer ensures Passes(a) <==> a == Says(true, false) {
    }
    forall a: Answer ensures !Decisive(a) <==> a == Says(false, false) {
    }
  }

  // ---------- what a validation comes to, whichever writes fail ----------

  /** What the configured checks or the validator rule. */
  datatype Ruling = LeaveOpen | Settle(status: Status) | Throw

  function Rule(kind: string, out: Outside): Ruling {
    if out.disabled then
      if out.source.NotConfigured? || out.source.success then Settle(Valid)
      else if out.source.invalid then Settle(Invalid)
      else LeaveOpen
    else if !out.prepared || Verdict(kind, out.answers).Raises? then Throw
    else Settle(if Verdict(kind, out.answers).invalid then Invalid else Valid)
  }

  /** A transition writes the challenge and then its authorization; the first failing write
      ends it. `fails` tells which writes fail, and n is the number of the next one. */
  function Moved(db: Tables, ch: string, status: Status, fails: nat -> bool, n: nat): Tables
    requires ch in db.challenges
  {
    if fails(n) then db
    else if fails(n + 1) then SetChallenge(db, ch, status)
    else Settled(db, ch, status)
  }

  predicate MoveFails(fails: nat -> bool, n: nat) {
    fails(n) || fails(n + 1)
  }

  function AfterMove(fails: nat -> bool, n: nat): nat {
    if fails(n) then n + 1 else n + 2
  }

  /** What a ruling comes to. What fails or raises ends in the handler, which tries once to
      make both rows invalid. */
  function AfterRuling(db: Tables, ch: string, r: Ruling, fails: nat -> bool, n: nat): Tables
    requires ch in db.challenges
  {
    match r
    case LeaveOpen => db
    case Throw => Moved(db, ch, Invalid, fails, n)
    case Settle(status) =>
      var first := Moved(db, ch, status, fails, n);
      if MoveFails(fails, n) then Moved(first, ch, Invalid, fails, AfterMove(fails, n)) else first
  }

  /** The tables after a whole validation. */
  function AfterValidation(db: Tables, ch: string, out: Outside, fails: nat -> bool, n: nat): Tables
    requires ch in db.challenges
  {
    if fails(n) then Moved(db, ch, Invalid, fails, n + 1)
    else AfterRuling(SetChallenge(db, ch, Processing), ch, Rule(db.challenges[ch].kind, out), fails, n + 1)
  }

  class ChallengeServer {
    var db: Tables
    var writes: nat
    /** Whether the n-th write against the tables fails. */
    const fails: nat -> bool

    constructor (db: Tables, fails: nat -> bool)
      ensures this.db == db && writes == 0 && this.fails == fails
    {
      this.db, writes := db, 0;
      this.fails := fails;
    }

    /** A foreign key of the store: every challenge has its authorization. */
    predicate Known(ch: string)
      reads this
    {
      ch in db.challenges && db.challenges[ch].authz in db.authzs
    }

    /** A failing write raises. */
    method UpdateChallenge(ch: string, status: Status) returns (raised: bool)
      modifies this
      ensures raised == fails(old(writes)) && writes == old(writes) + 1
      ensures db == if raised then old(db) else SetChallenge(old(db), ch, status)
    {
      raised := fails(writes);
      writes := writes + 1;
      if !raised && ch in db.challenges {
        db := db.(challenges := db.challenges[ch := db.challenges[ch].(status := status)]);
      }
    }

    method UpdateAuthorizationStatus(ch: string, status: Status) returns (raised: bool)
      requires Known(ch)
      modifies this
      ensures raised == fails(old(writes)) && writes == old(writes) + 1
      ensures db == if raised then old(db) else SetAuthz(old(db), old(db).challenges[ch].authz, status)
    {
      raised := fails(writes);
      writes := writes + 1;
      if !raised {
        var a := db.challenges[ch].authz;
        db := db.(authzs := db.authzs[a := db.authzs[a].(status := status)]);
      }
    }

    /** A transition of the challenge takes its authorization along. */
    method TransitionTo(ch: string, status: Status) returns (raised: bool)
      requires Known(ch)
      modifies this
      ensures Known(ch) && OnlyThese(old(db), db, ch)
      ensures db == Moved(old(db), ch, status, fails, old(writes))
      ensures raised == MoveFails(fails, old(writes)) && writes == AfterMove(fails, old(writes))
      ensures !raised ==> db == Settled(old(db), ch, status)
      ensures raised ==> exists k :: old(writes) <= k < writes && fails(k)
      // in columns: the challenge unless the first write fails, the authorization unless either does
      ensures db == old(db).(challenges := db.challenges, authzs := db.authzs)
      ensures db.challenges == if fails(old(writes)) then old(db).challenges
                               else old(db).challenges[ch := old(db).challenges[ch].(status := status)]
      ensures var a := old(db).challenges[ch].authz;
              db.authzs == if fails(old(writes)) || fails(old(writes) + 1) then old(db).authzs
                           else old(db).authzs[a := old(db).authzs[a].(status := status)]
    {
      raised := UpdateChallenge(ch, status);
      if raised {
        assert fails(old(writes));
      } else {
        ghost var k := writes;
        raised := UpdateAuthorizationStatus(ch, status);
        assert raised ==> fails(k);
      }
    }

    method PerformValidationWithRetry(kind: string, answers: nat -> Answer) returns (result: Answer, calls: nat)
      ensures result == Verdict(kind, answers)
      ensures 1 <= calls <= Attempts(kind)
      ensures forall i | 0 <= i < calls - 1 :: !Decisive(answers(i))
      ensures Decisive(answers(calls - 1)) || calls == Attempts(kind)
      // five calls for the three types that wait for DNS or mail, and no call after an answer that
      // decides; one that does not decide is the last and counts as invalid
      ensures var most := if kind == "dns-01" || kind == "dns-persist-01" || kind == "email-reply-00" then 5 else 1;
              && calls <= most
              && (forall i | 0 <= i < calls - 1 :: answers(i) == Says(false, false))
              && (calls < most ==> answers(calls - 1) != Says(false, false))
              && result == if answers(calls - 1) == Says(false, false) then Says(false, true) else answers(calls - 1)
    {
      var max := if kind in RETRIED_KINDS then 5 else 1;
      calls, result := 0, Raises;
      ghost var n := Calls(answers, 0, max);
      CallsStopAtTheFirst(answers, 0, max);
      while calls < max
        invariant calls <= max
        invariant forall i | 0 <= i < calls :: !Decisive(answers(i))
        invariant calls < n || (calls == max == n && result == Says(false, true))
      {
        result := answers(calls);
        calls := calls + 1;
        if Decisive(result) {
          break;
        }
        if !(kind in RETRIED_KINDS && calls < max) {
          result := result.(invalid := true);
        }
      }
    }

    method HandleValidationDisabled(ch: string, out: Outside) returns (passed: bool, raised: bool)
      requires Known(ch) && out.disabled
      modifies this
      ensures Known(ch) && OnlyThese(old(db), db, ch)
      ensures passed <==> out.source.NotConfigured? || out.source.success
      ensures match Rule("", out)
              case LeaveOpen => db == old(db) && !raised && writes == old(writes)
              case Settle(status) =>
                && db == Moved(old(db), ch, status, fails, old(writes))
                && raised == MoveFails(fails, old(writes)) && writes == AfterMove(fails, old(writes))
      ensures !raised ==>
                db == if LeftOpen(out) then old(db)
                      else Settled(old(db), ch, if Succeeds("", out) then Valid else Invalid)
      ensures raised ==> exists k :: old(writes) <= k < writes && fails(k)
      ensures old(writes) <= writes
    {
      var invalid := false;
      passed, raised := true, false;
      if out.source.Checked? {
        passed, invalid := out.source.success, !out.source.success && out.source.invalid;
      }
      if invalid {
        raised := TransitionTo(ch, Invalid);
      } else if passed {
        raised := TransitionTo(ch, Valid);
      }
    }

    /** The answer of the validator becomes the state of the challenge. */
    method UpdateStateFromValidation(ch: string, result: Answer) returns (passed: bool, raised: bool)
      requires Known(ch) && result.Says? && Decisive(result)
      modifies this
      ensures Known(ch) && OnlyThese(old(db), db, ch)
      ensures db == Moved(old(db), ch, if result.invalid then Invalid else Valid, fails, old(writes))
      ensures raised == MoveFails(fails, old(writes)) && writes == AfterMove(fails, old(writes))
      ensures !raised ==> db == Settled(old(db), ch, if passed then Valid else Invalid)
      ensures !raised ==> (passed <==> Passes(result))
      ensures raised ==> exists k :: old(writes) <= k < writes && fails(k)
      ensures old(writes) <= writes
    {
      passed := false;
      if result.invalid {
        raised := TransitionTo(ch, Invalid);
      } else {
        raised := TransitionTo(ch, Valid);
        passed := true;
      }
    }

    /** The part of a validation that an exception ends: then the challenge is made
        invalid by the caller. */
    method Attempt(ch: string, out: Outside) returns (passed: bool, raised: bool)
      requires Known(ch)
      modifies this
      ensures Known(ch) && OnlyThese(old(db), db, ch)
      ensures old(writes) <= writes
      ensures AfterValidation(old(db), ch, out, fails, old(writes))
                == if raised then Moved(db, ch, Invalid, fails, writes) else db
      ensures !raised && !LeftOpen(out) ==>
                Agree(db, ch, if Succeeds(old(db).challenges[ch].kind, out) then Valid else Invalid)
      ensures !raised && LeftOpen(out) ==> db == SetChallenge(old(db), ch, Processing)
      ensures raised && (forall k | old(writes) <= k < writes :: !fails(k)) ==>
                !out.disabled && !Succeeds(old(db).challenges[ch].kind, out)
    {
      passed := false;
      ghost var first := writes;
      raised := UpdateChallenge(ch, Processing);
      if raised {
        assert fails(first);
        return;
      }
      if out.disabled {
        ghost var from := writes;
        passed, raised := HandleValidationDisabled(ch, out);
        return;
      }
      if !out.prepared {
        raised := true;
        return;
      }
      var result, calls := PerformValidationWithRetry(db.challenges[ch].kind, out.answers);
      ValidationDecides(db.challenges[ch].kind, out.answers);
      if result.Raises? {
        raised := true;
        return;
      }
      passed, raised := UpdateStateFromValidation(ch, result);
    }

    /** A validation that comes to its end with validation enabled leaves the challenge and
        its authorization both valid or both invalid, whichever database writes fail on
        the way; without failing writes they are valid exactly when the validator passed
        the challenge. `died`: the write that should have marked the failure failed, too. */
    method PerformChallengeValidation(ch: string, out: Outside) returns (died: bool)
      requires Known(ch)
      modifies this
      ensures db == AfterValidation(old(db), ch, out, fails, old(writes))
      ensures OnlyThese(old(db), db, ch) && old(writes) <= writes
      ensures !died && !LeftOpen(out) ==> Agree(db, ch, Valid) || Agree(db, ch, Invalid)
      ensures died ==> exists k :: old(writes) <= k < writes && fails(k)
      // a single failing write is made up for, unless the validation fails in itself
      ensures (forall j, k | old(writes) <= j < k < writes :: !(fails(j) && fails(k)))
              && (out.disabled || Succeeds(old(db).challenges[ch].kind, out)) ==>
                !died
      ensures (forall k | old(writes) <= k < writes :: !fails(k)) ==>
                if LeftOpen(out) then db == SetChallenge(old(db), ch, Processing)
                else Agree(db, ch, if Succeeds(old(db).challenges[ch].kind, out) then Valid else Invalid)
      // in columns, where no write fails: both rows say what PassesExactly says
      ensures (forall k | old(writes) <= k < writes :: !fails(k)) ==>
                var a := old(db).challenges[ch].authz;
                if out.disabled && out.source == Checked(false, false) then
                  db.challenges[ch].status == Processing && db.authzs[a].status == old(db).authzs[a].status
                else
                  && db.challenges[ch].status == db.authzs[a].status
                  && db.authzs[a].status == if Succeeds(old(db).challenges[ch].kind, out) then Valid else Invalid
    {
      var passed, raised := Attempt(ch, out);
      died := false;
      if raised {
        ghost var mid := writes;
        died := TransitionTo(ch, Invalid);
      }
    }

    /** A client's request starts a validation unless one is running or has succeeded;
        an invalid challenge may be tried again. */
    method HandleChallengeRequest(ch: string, out: Outside) returns (shown: Status)
      requires Known(ch)
      modifies this
      ensures db == if old(db).challenges[ch].status in {Valid, Processing} then old(db)
                    else AfterValidation(old(db), ch, out, fails, old(writes))
      ensures OnlyThese(old(db), db, ch)
      ensures shown == db.challenges[ch].status
      ensures old(db).challenges[ch].status in {Valid, Processing} ==> db == old(db)
      ensures old(db).challenges[ch].status !in {Valid, Processing} && !LeftOpen(out)
              && (forall k | old(writes) <= k < writes :: !fails(k)) ==>
                (shown == Valid <==> Succeeds(old(db).challenges[ch].kind, out)) && Agree(db, ch, shown)
    {
      if db.challenges[ch].status !in {Valid, Processing} {
        var died := PerformChallengeValidation(ch, out);
      }
      shown := db.challenges[ch].status;
    }
  }
}
