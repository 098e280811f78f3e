/** The server as interleaved processes over the shared tables.

    Every request, background thread and sweep is a process with a program counter.
    One turn of a process is one statement against the tables, or one answer from
    outside. All that comes from outside - fresh names, answers of the CA, hooks and
    validators, failing database calls - is in the World argument of the turn. An action
    that cannot be taken leaves the state as it is, so every list of actions is a run. */
module OrderMachine {
  import opened AcmeTables
  import opened Binding
  import opened CertificateReuse
  import opened FinalizeAnswers
  import ChallengeSets

  datatype Config = Config(
    strict: bool,
    tnauth: bool,
    dryrun: bool,
    dryrunProfile: Option<string>,
    simulation: bool,
    jit: bool,             // dns-persist-01 support and its just-in-time validation are both on
    prevalidation: set<ChallengeSets.PrevalidationList>,  // the lists that are configured
    idempotent: bool,
    expiryCheck: bool,     // an order request first sweeps the expired orders
    forwardDetails: bool,
    asyncMode: bool,
    reuseWindow: int,
    rules: Rules,
    parseCsr: string -> Option<Csr>,  // None when the CSR cannot be parsed
    tnauthMatch: (seq<Identifier>, string) -> bool,
    sameKey: (string, string) -> bool)

  // ---------- what comes from outside ----------

  datatype Verdict = Passed | Failed | Undecided | Raised

  /** An answer of the CA; empty strings stand for absent values. */
  datatype CaAnswer = CaAnswer(error: string, cert: string, raw: string, pollId: string, rejected: bool)

  datatype World = World(
    lost: bool,            // the write of this step fails and control goes on
    readLost: bool,        // the read of this step fails
    accepted: bool,        // the policy question of this step is answered with yes
    disabled: bool,        // challenge validation is disabled for this request
    timeout: bool,         // the wait for the enrollment thread runs out
    callCa: bool,          // no reusable certificate: ask the CA
    name: string,          // a random name
    pid: nat,              // the id of a started thread
    issue: int,            // the issue time of a certificate
    until: int,            // an expiry time
    nullExpiry: bool,      // the store leaves a new authorization's expiry empty
    hookError: Option<string>,  // the text of a hook failure that is not ignored
    verdict: Verdict,
    kinds: seq<string>,    // challenge types to create
    answer: CaAnswer)

  // ---------- processes ----------

  datatype CreatePc = CBegin | CAuthzs | CSimulate(authz: string) | CEnd

  datatype PromotePc = PRead | PSawPending | PAllValid | PEnd

  datatype FinalizePc =
    | FArrived
    | FOwned
    | FSawReady
    | FClaimed
    | FGateFailed
    | FGated
    | FCsrStored(cert: string)
    | FBound(cert: string)
    | FWaiting(worker: nat)
    | FSucceeded
    | FAnswered(reply: Reply)
    | FEscaped   // an exception leaves the request without an answer of its own

  datatype EnrollPc =
    | EBegin
    | EHooked
    | EAtCa
    | EGotCert(cert: string, raw: string)
    | ECertStored
    | ESuccessHook
    | ENoCert(error: string, pollId: string)
    | EPostHook(error: string, detail: string)
    | EReturned(error: string, detail: string)
    | EDied

  datatype PollPc = QAsk | QStore(bundle: string, raw: string) | QValid | QInvalid | QEnd

  /** `last`: the thread is in its exception handler, and a failing write ends it. */
  datatype ValidatePc = VBegin | VRun | VMark(to: Status, last: bool) | VAuthz(to: Status, last: bool) | VEnd

  datatype FetchPc =
    | GToken
    | GDetails
    | GMarkAuthz(jit: bool)
    | GMarkOrder(jit: bool)
    | GChallenges
    | GCreate(todo: seq<string>)
    | GEnd

  datatype Proc =
    | Create(order: string, account: string, identifiers: seq<Identifier>, profile: string,
             names: seq<string>, cpc: CreatePc)
    | Promote(order: string, ppc: PromotePc)
    | Finalize(account: string, order: string, payloadCsr: Option<string>, fpc: FinalizePc)
    | Enroll(parent: nat, order: string, csr: string, certName: string, epc: EnrollPc)
    | Poll(certName: string, order: string, qpc: PollPc)
    | Trigger(todo: seq<(string, string)>, bundle: string, raw: string, stored: bool)
    | Validate(account: string, challenge: string, vpc: ValidatePc)
    | Fetch(authz: string, gpc: FetchPc)
    | SweepOrders(orders: seq<string>)
    | SweepAuthzs(authzs: seq<string>)

  // ---------- history ----------

  datatype Proof =
    | ValidatorPassed(challenge: string)
    | ValidationDisabled(challenge: string)
    | Prevalidated
    | JustInTime
    | Simulated

  datatype Event =
    | ReadyWritten(order: string)
    | ClaimWon(pid: nat, order: string)
    | GatePassed(pid: nat, order: string, at: int, rows: map<string, AuthzRow>)
    | Issued(pid: nat, order: string, csr: string, reused: bool)
    | StoreLost(order: string)
    | Evidence(authz: string, proof: Proof)

  /** `disclosed` holds the orders whose creation was answered, with the authorization
      names of that answer in identifier order. Names are random, so a request can only
      name an order after that answer. */
  datatype State = State(
    db: Tables,
    now: int,
    procs: map<nat, Proc>,
    dead: set<nat>,
    disclosed: map<string, seq<string>>,
    log: seq<Event>)

  datatype Action =
    | Tick(until: int)
    | Start(pid: nat, proc: Proc)
    | Advance(pid: nat, world: World)
    | Kill(pid: nat)
    | PromoteAtOnce(order: string)

  function Initial(): State {
    State(Tables(map[], map[], map[], map[]), 0, map[], {}, map[], [])
  }

  // ---------- configuration-dependent decisions ----------

  /** The CSR check against the stored identifiers; a CSR that cannot be parsed fails. */
  predicate CsrMatches(c: Config, ids: seq<Identifier>, csr: string) {
    if c.tnauth && HasTnauth(ids) then c.tnauthMatch(ids, csr)
    else if c.strict then
      c.parseCsr(csr).Some? && Strict(ids, c.parseCsr(csr).value, c.rules)
    else
      c.parseCsr(csr).Some? && Legacy(ids, c.parseCsr(csr).value)
  }

  /** A prevalidation list is configured for identifiers of this type. */
  predicate HasList(c: Config, id: Identifier) {
    var list := ChallengeSets.ListFor(id, c.rules.emailRewrite);
    list.Some? && list.value in c.prevalidation
  }

  predicate DryRun(c: Config, profile: string) {
    c.dryrun || (profile != "" && c.dryrunProfile == Some(profile))
  }

  /** A stored certificate for the same CSR that the reuse check would accept. */
  predicate Reusable(c: Config, s: State, k: string, csr: string, account: string) {
    && c.reuseWindow != 0
    && k in s.db.certs && s.db.certs[k].csr == csr && s.db.certs[k].order in s.db.orders
    && var row := s.db.certs[k];
    Eligible(Found(row.cert, row.raw, s.db.orders[row.order].account, Some(row.created), row.issueUts, row.expireUts),
             account, s.now, c.reuseWindow)
  }

  // ---------- which processes may start ----------

  predicate MayStart(c: Config, s: State, p: Proc) {
    match p
    case Create(_, _, ids, _, names, pc) => ids != [] && names == [] && pc == CBegin
    case Promote(o, pc) => o in s.disclosed && pc == PRead
    case Finalize(_, o, _, pc) => o in s.disclosed && pc == FArrived
    case Enroll(_, _, _, _, _) => false
    case Poll(k, o, pc) =>
      k in s.db.certs && s.db.certs[k].order == o && HasStatus(s.db, o, Processing) && pc == QAsk
    case Trigger(todo, bundle, raw, stored) =>
      bundle != "" && raw != "" && !stored && forall i | 0 <= i < |todo| :: TriggerHit(c, s.db, raw, todo[i])
    case Validate(account, ch, pc) =>
      && ch in s.db.challenges && pc == VBegin
      && s.db.challenges[ch].status != Valid && s.db.challenges[ch].status != Processing
      && ChallengeOwner(s.db, ch, account)
    case Fetch(a, pc) => a in s.db.authzs && s.db.authzs[a].order in s.disclosed && pc == GToken
    case SweepOrders(os) =>
      && (forall o | o in os :: o in s.db.orders && OrderExpiredAt(s.db.orders[o], s.now))
      && (forall o | o in s.db.orders && OrderExpiredAt(s.db.orders[o], s.now) :: o in os)
    case SweepAuthzs(az) =>
      && (forall a | a in az :: a in s.db.authzs && AuthzExpiredAt(s.db.authzs[a], s.now))
      && (forall a | a in s.db.authzs && AuthzExpiredAt(s.db.authzs[a], s.now) :: a in az)
  }

  /** One hit of the trigger's search over the orders in processing. */
  predicate TriggerHit(c: Config, db: Tables, raw: string, hit: (string, string)) {
    && hit.0 in db.certs && db.certs[hit.0].order == hit.1 && HasStatus(db, hit.1, Processing)
    && db.certs[hit.0].csr != "" && c.sameKey(db.certs[hit.0].csr, raw)
  }

  predicate ChallengeOwner(db: Tables, ch: string, account: string) {
    && account != ""
    && ch in db.challenges && db.challenges[ch].authz in db.authzs
    && var o := db.authzs[db.challenges[ch].authz].order;
    o in db.orders && db.orders[o].account == account
  }

  // ---------- turns ----------

  /** One statement against the tables. Names are unique: an insert under a taken name fails. */
  datatype Write =
    | NoWrite
    | NewOrder(order: string, orow: OrderRow)
    | OrderTo(order: string, status: Status)
    | NewAuthz(authz: string, arow: AuthzRow)
    | AuthzTo(authz: string, status: Status)
    | AuthzToken(authz: string, token: string, until: int)
    | NewChallenge(challenge: string, crow: ChallengeRow)
    | ChallengeTo(challenge: string, status: Status)
    | NewCert(certName: string, krow: CertRow)
    | CertTo(certName: string, cert: string, raw: string, issueUts: int, expireUts: int)

  function Apply(db: Tables, w: Write): Tables {
    match w
    case NoWrite => db
    case NewOrder(o, row) => if o in db.orders then db else db.(orders := db.orders[o := row])
    case OrderTo(o, st) => SetOrder(db, o, st)
    case NewAuthz(a, row) => if a in db.authzs then db else db.(authzs := db.authzs[a := row])
    case AuthzTo(a, st) => SetAuthz(db, a, st)
    case AuthzToken(a, token, until) =>
      if a in db.authzs then
        db.(authzs := db.authzs[a := db.authzs[a].(token := token, expires := Some(until))])
      else db
    case NewChallenge(ch, row) => if ch in db.challenges then db else db.(challenges := db.challenges[ch := row])
    case ChallengeTo(ch, st) => SetChallenge(db, ch, st)
    case NewCert(k, row) => if k in db.certs then db else db.(certs := db.certs[k := row])
    case CertTo(k, cert, raw, issue, expire) => StoreCert(db, k, cert, raw, issue, expire)
  }

  /** What one process does when it is its turn: its next program counter, one
      statement, and what the history remembers of it. A finalize request may start
      its enrollment thread; an order creation may answer its client. */
  datatype Turn =
    | Stuck
    | Turn(proc: Proc, write: Write, note: Option<Event>)
    | Spawn(proc: Proc, child: nat, thread: Proc)
    | Disclose(proc: Proc, order: string, names: seq<string>)

  function Move(p: Proc): Turn {
    Turn(p, NoWrite, None)
  }

  function Do(p: Proc, w: Write): Turn {
    Turn(p, w, None)
  }

  /** A write of `ready` that may fail. */
  function ReadyTurn(p: Proc, lost: bool, o: string): Turn {
    if lost then Move(p) else Turn(p, OrderTo(o, Ready), Some(ReadyWritten(o)))
  }

  function OrderTurn(p: Proc, lost: bool, o: string, st: Status): Turn {
    if lost then Move(p) else Do(p, OrderTo(o, st))
  }

  function CertTurn(p: Proc, w: World, k: string, o: string, cert: string, raw: string): Turn {
    if w.lost then Turn(p, NoWrite, Some(StoreLost(o))) else Do(p, CertTo(k, cert, raw, w.issue, w.until))
  }

  /** Order creation: the order row, then its authorizations one by one (each written
      valid at once in simulation mode), then the answer that discloses the names. */
  function CreateTurn(c: Config, s: State, p: Proc, w: World): Turn
    requires p.Create?
  {
    match p.cpc
    case CBegin =>
      if p.order in s.db.orders || w.lost then Stuck
      else
        var row := OrderRow(p.account, p.identifiers, p.profile, if w.accepted then Pending else Invalid, w.until);
        Do(p.(cpc := if w.accepted then CAuthzs else CEnd), NewOrder(p.order, row))
    case CAuthzs =>
      if |p.names| < |p.identifiers| then
        if w.name in s.db.authzs || w.lost then Stuck
        else
          var row := AuthzRow(p.order, p.identifiers[|p.names|], Pending,
                              if w.nullExpiry then None else Some(w.until), "");
          Do(p.(names := p.names + [w.name], cpc := if c.simulation then CSimulate(w.name) else CAuthzs),
             NewAuthz(w.name, row))
      else if p.order in s.disclosed then Stuck
      else Disclose(p.(cpc := CEnd), p.order, p.names)
    case CSimulate(a) =>
      if w.lost then Move(p.(cpc := CEnd))
      else Turn(p.(cpc := CAuthzs), AuthzTo(a, Valid), Some(Evidence(a, Simulated)))
    case CEnd => Stuck
  }

  /** Promotion as the code does it: read the status, read the authorizations, then
      write `ready` without looking at the status again. */
  function PromoteTurn(s: State, p: Proc, w: World): Turn
    requires p.Promote?
  {
    match p.ppc
    case PRead => Move(p.(ppc := if HasStatus(s.db, p.order, Pending) then PSawPending else PEnd))
    case PSawPending =>
      Move(p.(ppc := if !w.readLost && AllValid(s.db.authzs, p.order) then PAllValid else PEnd))
    case PAllValid => ReadyTurn(p.(ppc := PEnd), w.lost, p.order)
    case PEnd => Stuck
  }

  /** The finalize request up to the gate: owner, status, claim, authorizations. */
  function AdmitTurn(c: Config, s: State, pid: nat, p: Proc, w: World): Turn
    requires p.Finalize?
  {
    var o := p.order;
    match p.fpc
    case FArrived =>
      // the read of the order that comes first is a promotion, a process of its own
      if o !in s.db.orders || w.lost then Move(p.(fpc := FAnswered(NotFound)))
      else if p.account != "" && s.db.orders[o].account == p.account && !w.readLost then Move(p.(fpc := FOwned))
      else Move(p.(fpc := FAnswered(NotOwner)))
    case FOwned =>
      if HasStatus(s.db, o, Valid) && c.idempotent then Move(p.(fpc := FAnswered(AlreadyValid)))
      else if !HasStatus(s.db, o, Ready) || w.readLost then Move(p.(fpc := FAnswered(NotReady)))
      else if p.payloadCsr.None? then Move(p.(fpc := FAnswered(CsrMissing)))
      else Move(p.(fpc := FSawReady))
    case FSawReady =>
      if HasStatus(s.db, o, Ready) && !w.lost then
        Turn(p.(fpc := FClaimed), OrderTo(o, Processing), Some(ClaimWon(pid, o)))
      else Move(p.(fpc := FAnswered(NotReady)))
    case FClaimed =>
      if GateOpen(s.db.authzs, o, s.now) && !w.readLost then
        Turn(p.(fpc := FGated), NoWrite, Some(GatePassed(pid, o, s.now, s.db.authzs)))
      else Move(p.(fpc := FGateFailed))
    case FGateFailed => OrderTurn(p.(fpc := FAnswered(NotReady)), w.lost, o, Invalid)
    case _ => Stuck
  }

  /** The finalize request behind the gate: the CSR row, the CSR check, the enrollment
      thread and its result. */
  function RedeemTurn(c: Config, s: State, pid: nat, p: Proc, w: World): Turn
    requires p.Finalize?
  {
    var o := p.order;
    match p.fpc
    case FGated =>
      if p.payloadCsr.None? || w.name in s.db.certs then Stuck
      else if !w.accepted then Move(p.(fpc := FAnswered(CsrRefused)))
      else if w.lost then Move(p.(fpc := FAnswered(CsrMismatch)))
      else Do(p.(fpc := FCsrStored(w.name)), NewCert(w.name, CertRow(o, p.payloadCsr.value, "", "", 0, 0, s.now)))
    case FCsrStored(k) =>
      if p.payloadCsr.None? || o !in s.db.orders then Stuck
      else if w.readLost || !CsrMatches(c, s.db.orders[o].identifiers, p.payloadCsr.value) then
        Move(p.(fpc := FAnswered(CsrMismatch)))
      else if DryRun(c, s.db.orders[o].profile) then
        Move(p.(fpc := FAnswered(DryRunOnly)))
      else Move(p.(fpc := FBound(k)))
    case FBound(k) =>
      if p.payloadCsr.None? || w.pid in s.procs then Stuck
      else
        var started := if c.asyncMode then FAnswered(Started) else FWaiting(w.pid);
        Spawn(p.(fpc := started), w.pid, Enroll(pid, o, p.payloadCsr.value, k, EBegin))
    case FWaiting(worker) =>
      if w.timeout then Move(p.(fpc := FAnswered(TimedOut)))
      else if worker !in s.procs || !s.procs[worker].Enroll? then Stuck
      else if s.procs[worker].epc.EDied? then Move(p.(fpc := FAnswered(TimedOut)))
      else if !s.procs[worker].epc.EReturned? then Stuck
      else
        var r := s.procs[worker].epc;
        if WritesValid(r.error, r.detail) then Move(p.(fpc := FSucceeded))
        else Move(p.(fpc := FAnswered(Result(r.error, r.detail))))
    case FSucceeded =>
      // this write is not guarded: when it fails the request ends without an answer
      if w.lost then Move(p.(fpc := FEscaped)) else Do(p.(fpc := FAnswered(Result("", ""))), OrderTo(o, Valid))
    case _ => Stuck
  }

  function FinalizeTurn(c: Config, s: State, pid: nat, p: Proc, w: World): Turn
    requires p.Finalize?
  {
    if p.fpc.FArrived? || p.fpc.FOwned? || p.fpc.FSawReady? || p.fpc.FClaimed? || p.fpc.FGateFailed? then
      AdmitTurn(c, s, pid, p, w)
    else RedeemTurn(c, s, pid, p, w)
  }

  /** The enrollment thread of one finalize request. An exception inside the thread
      ends it without a result. */
  function EnrollTurn(c: Config, s: State, p: Proc, w: World): Turn
    requires p.Enroll?
  {
    var o := p.order;
    match p.epc
    case EBegin =>
      Move(p.(epc := if w.hookError.None? then EHooked else EReturned("pre_hook_error", w.hookError.value)))
    case EHooked =>
      if w.callCa then Turn(p.(epc := EAtCa), NoWrite, Some(Issued(p.parent, o, p.csr, false)))
      else if o in s.db.orders && Reusable(c, s, w.name, p.csr, s.db.orders[o].account) then
        Turn(p.(epc := EGotCert(s.db.certs[w.name].cert, s.db.certs[w.name].raw)), NoWrite,
             Some(Issued(p.parent, o, p.csr, true)))
      else Stuck
    case EAtCa =>
      if w.verdict == Raised then Move(p.(epc := EDied))
      else if w.answer.cert != "" then Move(p.(epc := EGotCert(w.answer.cert, w.answer.raw)))
      else Move(p.(epc := ENoCert(w.answer.error, w.answer.pollId)))
    case EGotCert(cert, raw) =>
      if w.verdict == Raised then Move(p.(epc := EReturned(SERVER_INTERNAL, UNEXPECTED_FORMAT)))
      else CertTurn(p.(epc := if w.lost then ESuccessHook else ECertStored), w, p.certName, o, cert, raw)
    case ECertStored => OrderTurn(p.(epc := ESuccessHook), w.lost, o, Valid)
    case ESuccessHook =>
      Move(p.(epc := if w.hookError.None? then EPostHook("", "")
                     else EReturned("success_hook_error", w.hookError.value)))
    case ENoCert(error, pollId) =>
      var r := ClientError(c.forwardDetails, error, pollId);
      OrderTurn(p.(epc := EPostHook(r.0, r.1)), w.lost || pollId != "", o, Invalid)
    case EPostHook(error, detail) =>
      Move(p.(epc := if w.hookError.None? then EReturned(error, detail)
                     else EReturned(SERVER_INTERNAL, UNEXPECTED_FORMAT)))
    case EReturned(_, _) => Stuck
    case EDied => Stuck
  }

  /** The polling job for one certificate row. */
  function PollTurn(s: State, p: Proc, w: World): Turn
    requires p.Poll?
  {
    match p.qpc
    case QAsk =>
      var a := w.answer;
      Move(p.(qpc := if w.verdict == Raised then QEnd
                     else if a.cert != "" then QStore(a.cert, a.raw)
                     else if a.rejected then QInvalid else QEnd))
    case QStore(bundle, raw) => CertTurn(p.(qpc := QValid), w, p.certName, p.order, bundle, raw)
    case QValid => OrderTurn(p.(qpc := QEnd), w.lost, p.order, Valid)
    case QInvalid => OrderTurn(p.(qpc := QEnd), w.lost, p.order, Invalid)
    case QEnd => Stuck
  }

  /** The trigger callback: for each hit, store the certificate, then write `valid`. */
  function TriggerTurn(s: State, p: Proc, w: World): Turn
    requires p.Trigger?
  {
    if p.todo == [] then Stuck
    else
      var (k, o) := p.todo[0];
      // without dates the upsert resets them to 0
      if !p.stored then CertTurn(p.(stored := true), w.(issue := 0, until := 0), k, o, p.bundle, p.raw)
      else OrderTurn(p.(todo := p.todo[1..], stored := false), w.lost, o, Valid)
  }

  /** Where a failing write sends a validation thread: to its handler, which marks the
      challenge invalid, or from there to its end. */
  function AfterLoss(last: bool): ValidatePc {
    if last then VEnd else VMark(Invalid, true)
  }

  /** The validation thread of one challenge. */
  function ValidateTurn(s: State, p: Proc, w: World): Turn
    requires p.Validate?
  {
    var ch := p.challenge;
    match p.vpc
    case VBegin =>
      if w.lost then Move(p.(vpc := AfterLoss(false))) else Do(p.(vpc := VRun), ChallengeTo(ch, Processing))
    case VRun =>
      if w.verdict == Passed then
        if ch in s.db.challenges then
          Turn(p.(vpc := VMark(Valid, false)), NoWrite,
               Some(Evidence(s.db.challenges[ch].authz,
                             if w.disabled then ValidationDisabled(ch) else ValidatorPassed(ch))))
        else Stuck
      else if w.verdict == Undecided && w.disabled then Move(p.(vpc := VEnd))
      else Move(p.(vpc := VMark(Invalid, w.verdict == Raised)))
    case VMark(to, last) =>
      if w.lost then Move(p.(vpc := AfterLoss(last))) else Do(p.(vpc := VAuthz(to, last)), ChallengeTo(ch, to))
    case VAuthz(to, last) =>
      if w.lost || ch !in s.db.challenges then Move(p.(vpc := AfterLoss(last)))
      else Do(p.(vpc := VEnd), AuthzTo(s.db.challenges[ch].authz, to))
    case VEnd => Stuck
  }

  /** A read of one authorization: the token, the just-in-time check and the
      prevalidation lists, which write the authorization `valid` and the order `ready`
      without looking at either again, then the challenge set. */
  function FetchTurn(c: Config, s: State, p: Proc, w: World): Turn
    requires p.Fetch?
  {
    var a := p.authz;
    if a !in s.db.authzs then Stuck
    else
      var row := s.db.authzs[a];
      match p.gpc
      case GToken =>
        if Strip(row.token) != "" then Move(p.(gpc := GDetails))
        else if w.lost then Move(p.(gpc := GEnd))
        else Do(p.(gpc := GDetails), AuthzToken(a, w.name, w.until))
      case GDetails =>
        if c.jit && row.identifier.kind == "dns" && w.verdict == Passed then
          Turn(p.(gpc := GMarkAuthz(true)), NoWrite, Some(Evidence(a, JustInTime)))
        else if HasList(c, row.identifier) && w.accepted && row.status != Valid then
          Turn(p.(gpc := GMarkAuthz(false)), NoWrite, Some(Evidence(a, Prevalidated)))
        else Move(p.(gpc := GChallenges))
      case GMarkAuthz(jit) =>
        if w.lost then Move(p.(gpc := GEnd)) else Do(p.(gpc := GMarkOrder(jit)), AuthzTo(a, Valid))
      case GMarkOrder(jit) =>
        ReadyTurn(p.(gpc := if jit || w.lost then GEnd else GChallenges), w.lost, row.order)
      case GChallenges =>
        var known := exists ch :: ch in s.db.challenges && s.db.challenges[ch].authz == a;
        Move(p.(gpc := if known then GEnd else GCreate(w.kinds)))
      case GCreate(todo) =>
        if todo == [] || w.name in s.db.challenges then Stuck
        else
          Do(p.(gpc := GCreate(todo[1..])),
             NewChallenge(w.name, ChallengeSets.NewRow(a, todo[0], Strip(row.token))))
      case GEnd => Stuck
  }

  function SweepOrdersTurn(p: Proc, w: World): Turn
    requires p.SweepOrders?
  {
    if p.orders == [] then Stuck
    else OrderTurn(p.(orders := p.orders[1..]), w.lost, p.orders[0], Invalid)
  }

  function SweepAuthzsTurn(p: Proc, w: World): Turn
    requires p.SweepAuthzs?
  {
    if p.authzs == [] then Stuck
    else if w.lost then Move(p.(authzs := p.authzs[1..]))
    else Do(p.(authzs := p.authzs[1..]), AuthzTo(p.authzs[0], Expired))
  }

  function TurnOf(c: Config, s: State, pid: nat, p: Proc, w: World): Turn {
    match p
    case Create(_, _, _, _, _, _) => CreateTurn(c, s, p, w)
    case Promote(_, _) => PromoteTurn(s, p, w)
    case Finalize(_, _, _, _) => FinalizeTurn(c, s, pid, p, w)
    case Enroll(_, _, _, _, _) => EnrollTurn(c, s, p, w)
    case Poll(_, _, _) => PollTurn(s, p, w)
    case Trigger(_, _, _, _) => TriggerTurn(s, p, w)
    case Validate(_, _, _) => ValidateTurn(s, p, w)
    case Fetch(_, _) => FetchTurn(c, s, p, w)
    case SweepOrders(_) => SweepOrdersTurn(p, w)
    case SweepAuthzs(_) => SweepAuthzsTurn(p, w)
  }

  /** The state after a turn. */
  function Take(s: State, pid: nat, t: Turn): State {
    match t
    case Stuck => s
    case Turn(p, write, note) =>
      s.(db := Apply(s.db, write),
         procs := s.procs[pid := p],
         log := if note.Some? then s.log + [note.value] else s.log)
    case Spawn(p, child, thread) =>
      if child in s.procs then s else s.(procs := s.procs[child := thread][pid := p])
    case Disclose(p, o, names) =>
      if o in s.disclosed then s
      else s.(procs := s.procs[pid := p], disclosed := s.disclosed[o := names])
  }

  /** The promotion of an order in one step. */
  function Promoted(s: State, o: string): State {
    s.(db := SetOrder(s.db, o, Ready), log := s.log + [ReadyWritten(o)])
  }

  function Step(c: Config, s: State, a: Action): State {
    match a
    case Tick(t) => if s.now <= t then s.(now := t) else s
    case Start(pid, p) => if pid !in s.procs && MayStart(c, s, p) then s.(procs := s.procs[pid := p]) else s
    case Advance(pid, w) =>
      if pid in s.procs && pid !in s.dead then Take(s, pid, TurnOf(c, s, pid, s.procs[pid], w)) else s
    case Kill(pid) => s.(dead := s.dead + {pid})
    case PromoteAtOnce(o) =>
      if o in s.disclosed && HasStatus(s.db, o, Pending) && AllValid(s.db.authzs, o) then Promoted(s, o) else s
  }

  /** The state after a list of actions. */
  function Run(c: Config, acts: seq<Action>): State {
    if acts == [] then Initial() else Step(c, Run(c, acts[..|acts| - 1]), acts[|acts| - 1])
  }
}
