/** Reading an authorization: its token, its shortcuts and its challenge set. */
module ChallengeSets {
  import opened AcmeTables
  import opened Binding

  const HTTP := "http-01"
  const DNS := "dns-01"
  const TLS_ALPN := "tls-alpn-01"
  const DNS_PERSIST := "dns-persist-01"
  const EMAIL_REPLY := "email-reply-00"
  const TKAUTH := "tkauth-01"
  const SECTIGO := "sectigo-email-01"

  /** `url` is the server name and path in front of a challenge name. */
  datatype Config = Config(
    emailSupport: bool,
    emailAddress: string,
    tnauthSupport: bool,
    sectigoSim: bool,
    dnsPersist: bool,
    jit: bool,
    emailRewrite: bool,
    validity: int,
    url: string)

  /** The lists of identifiers that need no challenge. */
  datatype PrevalidationList = Domains | Addresses | Mails

  datatype Challenge = Challenge(name: string, row: ChallengeRow)

  /** The challenge rows are in the order of their insertion. */
  datatype Store = Store(authzs: map<string, AuthzRow>, orders: map<string, Status>, challenges: seq<Challenge>)

  /** What one read meets outside: random values, the clock, the just-in-time validator,
      what the prevalidation lists hold, and how many challenge inserts succeed before the
      database fails. */
  datatype Outside = Outside(
    token: string,
    names: nat -> string,
    now: int,
    jitPasses: bool,
    listed: (PrevalidationList, string) -> bool,
    inserts: nat)

  /** One challenge as a client sees it. */
  datatype Listed = Listed(kind: string, url: string, token: Option<string>, status: Status)

  datatype Details = Details(expires: int, status: Status, challenges: seq<Listed>)

  // ---------- which challenges an authorization gets ----------

  function StandardKinds(c: Config, kind: string, value: string, wildcard: bool): seq<string> {
    var dns := Lower(kind) == "dns";
    var kinds := if dns && (wildcard || "*." <= value) then [DNS]
                 else if Lower(kind) == "ip" then [HTTP, TLS_ALPN]
                 else [HTTP, DNS, TLS_ALPN];
    if c.dnsPersist && dns then kinds + [DNS_PERSIST] else kinds
  }

  function Kinds(c: Config, kind: string, value: string, wildcard: bool): seq<string> {
    if c.emailSupport && c.emailAddress != "" && '@' in value then [EMAIL_REPLY]
    else if c.tnauthSupport && Lower(kind) == "tnauthlist" then [TKAUTH]
    else (if c.sectigoSim then [SECTIGO] else []) + StandardKinds(c, kind, value, wildcard)
  }

  function Bare(value: string): string {
    if "*." <= value then value[2..] else value
  }

  function KindsFor(c: Config, id: Identifier): seq<string> {
    Kinds(c, id.kind, Bare(id.value), "*." <= id.value)
  }

  function NewRow(a: string, kind: string, token: string): ChallengeRow {
    ChallengeRow(a, kind, token, if kind == SECTIGO then Valid else Pending)
  }

  function NewChallenge(a: string, kind: string, token: string, name: string): Challenge {
    Challenge(name, NewRow(a, kind, token))
  }

  function NewChallenges(a: string, kinds: seq<string>, token: string, names: nat -> string): (rows: seq<Challenge>)
    ensures |rows| == |kinds|
    ensures forall i | 0 <= i < |kinds| :: rows[i] == NewChallenge(a, kinds[i], token, names(i))
  {
    seq(|kinds|, i requires 0 <= i < |kinds| => NewChallenge(a, kinds[i], token, names(i)))
  }

  /** The answer of the creating read: two types hide their token. */
  function ShowNew(c: Config, ch: Challenge): Listed {
    Listed(ch.row.kind, c.url + ch.name,
           if ch.row.kind == DNS_PERSIST || ch.row.kind == SECTIGO then None else Some(ch.row.token),
           ch.row.status)
  }

  /** The answer of a later read: only one type hides its token. */
  function ShowKnown(c: Config, ch: Challenge): Listed {
    Listed(ch.row.kind, c.url + ch.name,
           if ch.row.kind == DNS_PERSIST then None else Some(ch.row.token),
           ch.row.status)
  }

  function ShowAllNew(c: Config, rows: seq<Challenge>): (shown: seq<Listed>)
    ensures |shown| == |rows|
    ensures forall i | 0 <= i < |rows| :: shown[i] == ShowNew(c, rows[i])
  {
    seq(|rows|, i requires 0 <= i < |rows| => ShowNew(c, rows[i]))
  }

  function ShowAllKnown(c: Config, rows: seq<Challenge>): (shown: seq<Listed>)
    ensures |shown| == |rows|
    ensures forall i | 0 <= i < |rows| :: shown[i] == ShowKnown(c, rows[i])
  {
    seq(|rows|, i requires 0 <= i < |rows| => ShowKnown(c, rows[i]))
  }

  /** The rows of one authorization, in the order of the table. */
  function RowsOf(challenges: seq<Challenge>, a: string): seq<Challenge> {
    if challenges == [] then []
    else
      var n := |challenges| - 1;
      RowsOf(challenges[..n], a) + (if challenges[n].row.authz == a then [challenges[n]] else [])
  }

  // ---------- what the sets look like ----------

  predicate NoRepeats(kinds: seq<string>) {
    forall i, j | 0 <= i < j < |kinds| :: kinds[i] != kinds[j]
  }

  /** The identifier gets a single challenge of its own type. */
  predicate SingleKind(c: Config, kind: string, value: string) {
    (c.emailSupport && c.emailAddress != "" && '@' in value) || (c.tnauthSupport && Lower(kind) == "tnauthlist")
  }

  lemma KindNamesDiffer()
    ensures NoRepeats([SECTIGO, HTTP, DNS, TLS_ALPN, DNS_PERSIST, EMAIL_REPLY, TKAUTH])
  {
    assert SECTIGO[0] == 's' && HTTP[0] == 'h' && DNS[0] == 'd' && DNS_PERSIST[0] == 'd' && EMAIL_REPLY[0] == 'e';
    assert TLS_ALPN[0] == 't' && TKAUTH[0] == 't' && TLS_ALPN[1] == 'l' && TKAUTH[1] == 'k';
    assert |DNS| != |DNS_PERSIST|;
  }

  lemma KindPrefixesDiffer(kind: string)
    requires kind == "dns" || kind == "ip" || kind == "tnauthlist"
    ensures kind == "dns" ==> kind != "ip" && kind != "tnauthlist"
    ensures kind == "ip" ==> kind != "tnauthlist"
  {
    assert "dns"[0] == 'd' && "ip"[0] == 'i' && "tnauthlist"[0] == 't';
  }

  lemma StandardKindsFacts(c: Config, kind: string, value: string, wildcard: bool)
    ensures var kinds := StandardKinds(c, kind, value, wildcard);
            && NoRepeats(kinds) && SECTIGO !in kinds && EMAIL_REPLY !in kinds && TKAUTH !in kinds
            && (DNS in kinds <==> Lower(kind) != "ip")
            && (HTTP in kinds <==> !(Lower(kind) == "dns" && (wildcard || "*." <= value)))
            && (TLS_ALPN in kinds <==> HTTP in kinds)
            && (DNS_PERSIST in kinds <==> c.dnsPersist && Lower(kind) == "dns")
            && |kinds| >= 1
  {
    KindNamesDiffer();
    var all := [SECTIGO, HTTP, DNS, TLS_ALPN, DNS_PERSIST, EMAIL_REPLY, TKAUTH];
    assert forall i, j | 0 <= i < j < 7 :: all[i] != all[j];
    assert all[0] == SECTIGO && all[1] == HTTP && all[2] == DNS && all[3] == TLS_ALPN && all[4] == DNS_PERSIST
           && all[5] == EMAIL_REPLY && all[6] == TKAUTH;
    if Lower(kind) == "ip" || Lower(kind) == "dns" {
      KindPrefixesDiffer(Lower(kind));
    }
  }

  /** What an identifier gets: never nothing and nothing twice; an email address or TNAuthList
      identifier exactly its own type; a wildcard name neither http-01 nor tls-alpn-01, an
      address no dns-01, and every other identifier all three; dns-persist-01 exactly for dns
      names where supported; sectigo-email-01 exactly in simulation, and then first. */
  lemma KindsFacts(c: Config, kind: string, value: string, wildcard: bool)
    ensures var kinds := Kinds(c, kind, value, wildcard);
            && kinds != [] && NoRepeats(kinds)
            && (SingleKind(c, kind, value) ==>
                  kinds == [if c.emailSupport && c.emailAddress != "" && '@' in value then EMAIL_REPLY else TKAUTH])
            && (!SingleKind(c, kind, value) ==>
                  && EMAIL_REPLY !in kinds && TKAUTH !in kinds
                  && (DNS in kinds <==> Lower(kind) != "ip")
                  && (HTTP in kinds <==> !(Lower(kind) == "dns" && (wildcard || "*." <= value)))
                  && (TLS_ALPN in kinds <==> HTTP in kinds)
                  && (DNS_PERSIST in kinds <==> c.dnsPersist && Lower(kind) == "dns")
                  && (SECTIGO in kinds <==> c.sectigoSim)
                  && (c.sectigoSim ==> kinds[0] == SECTIGO))
  {
    StandardKindsFacts(c, kind, value, wildcard);
    KindNamesDiffer();
    var standard := StandardKinds(c, kind, value, wildcard);
    var all := [SECTIGO, HTTP, DNS, TLS_ALPN, DNS_PERSIST, EMAIL_REPLY, TKAUTH];
    assert forall j | 0 < j < 7 :: all[0] != all[j];
    assert all[1] == HTTP && all[2] == DNS && all[3] == TLS_ALPN && all[4] == DNS_PERSIST
           && all[5] == EMAIL_REPLY && all[6] == TKAUTH;
    assert forall k :: k in [SECTIGO] + standard <==> k == SECTIGO || k in standard;
  }

  // ---------- what one read does ----------

  function TokenOf(s: Store, a: string, out: Outside): string
    requires a in s.authzs
  {
    if Strip(s.authzs[a].token) != "" then Strip(s.authzs[a].token) else out.token
  }

  /** The expiry that a read reports; an empty one is made up but not persisted. */
  function ExpiresOf(c: Config, s: Store, a: string, out: Outside): int
    requires a in s.authzs
  {
    var row := s.authzs[a];
    if Strip(row.token) != "" && row.expires.Some? && row.expires.value != 0 then row.expires.value
    else out.now + c.validity
  }

  function WithToken(c: Config, s: Store, a: string, out: Outside): Store
    requires a in s.authzs
  {
    if Strip(s.authzs[a].token) != "" then s
    else s.(authzs := s.authzs[a := s.authzs[a].(token := out.token, expires := Some(out.now + c.validity))])
  }

  function MarkedValid(s: Store, a: string): Store
    requires a in s.authzs
  {
    var o := s.authzs[a].order;
    s.(authzs := s.authzs[a := s.authzs[a].(status := Valid)],
       orders := if o in s.orders then s.orders[o := Ready] else s.orders)
  }

  predicate JustInTime(c: Config, row: AuthzRow, out: Outside) {
    row.identifier.kind == "dns" && c.dnsPersist && c.jit && out.jitPasses
  }

  /** The list that an identifier is looked up in, if there is one for its type. */
  function ListFor(id: Identifier, emailRewrite: bool): Option<PrevalidationList> {
    var value := Bare(id.value);
    if value == "" then None
    else if ((id.kind == "dns" && emailRewrite) || id.kind == "email") && '@' in value then Some(Mails)
    else if id.kind == "dns" then Some(Domains)
    else if id.kind == "ip" then Some(Addresses)
    else None
  }

  predicate OnList(c: Config, id: Identifier, out: Outside) {
    var list := ListFor(id, c.emailRewrite);
    list.Some? && out.listed(list.value, Bare(id.value))
  }

  predicate Prevalidated(c: Config, row: AuthzRow, out: Outside) {
    OnList(c, row.identifier, out) && row.status != Valid
  }

  function Shortcut(c: Config, s: Store, a: string, out: Outside): Store
    requires a in s.authzs
  {
    if JustInTime(c, s.authzs[a], out) || Prevalidated(c, s.authzs[a], out) then MarkedValid(s, a) else s
  }

  /** The rows that one read adds: none if there are some, and those before a failure. */
  function Added(c: Config, s: Store, a: string, out: Outside): seq<Challenge>
    requires a in s.authzs
  {
    if JustInTime(c, s.authzs[a], out) || RowsOf(s.challenges, a) != [] then []
    else
      var rows := NewChallenges(a, KindsFor(c, s.authzs[a].identifier), TokenOf(s, a, out), out.names);
      if |rows| <= out.inserts then rows else rows[..out.inserts]
  }

  function Shown(c: Config, s: Store, a: string, out: Outside): seq<Listed>
    requires a in s.authzs
  {
    if JustInTime(c, s.authzs[a], out) then []
    else if RowsOf(s.challenges, a) != [] then ShowAllKnown(c, RowsOf(s.challenges, a))
    else if out.inserts < |KindsFor(c, s.authzs[a].identifier)| then []
    else ShowAllNew(c, Added(c, s, a, out))
  }

  function AfterRead(c: Config, s: Store, a: string, out: Outside): Store {
    if a !in s.authzs then s
    else
      var t := Shortcut(c, WithToken(c, s, a, out), a, out);
      t.(challenges := s.challenges + Added(c, s, a, out))
  }

  lemma ReadEndsEarly(c: Config, s: Store, a: string, out: Outside)
    requires a in s.authzs && JustInTime(c, s.authzs[a], out)
    ensures AfterRead(c, s, a, out) == MarkedValid(WithToken(c, s, a, out), a) && Shown(c, s, a, out) == []
  {
    assert s.challenges + [] == s.challenges;
  }

  lemma ReadWithSet(c: Config, s: Store, a: string, out: Outside, after: seq<Challenge>, shown: seq<Listed>)
    requires a in s.authzs && !JustInTime(c, s.authzs[a], out)
    requires RowsOf(s.challenges, a) != [] ==>
               after == s.challenges && shown == ShowAllKnown(c, RowsOf(s.challenges, a))
    requires RowsOf(s.challenges, a) == [] ==>
               var rows := NewChallenges(a, KindsFor(c, s.authzs[a].identifier), TokenOf(s, a, out), out.names);
               if |rows| <= out.inserts then after == s.challenges + rows && shown == ShowAllNew(c, rows)
               else after == s.challenges + rows[..out.inserts] && shown == []
    ensures AfterRead(c, s, a, out) == Shortcut(c, WithToken(c, s, a, out), a, out).(challenges := after)
    ensures shown == Shown(c, s, a, out)
  {
    assert s.challenges + [] == s.challenges;
  }

  // ---------- the read as the code runs it ----------

  datatype Created = Done(challenges: seq<Listed>) | Failed

  class Authorizations {
    var authzs: map<string, AuthzRow>
    var orders: map<string, Status>
    var challenges: seq<Challenge>
    const c: Config

    constructor (c: Config, s: Store)
      ensures this.c == c && Contents() == s
    {
      this.c := c;
      authzs, orders, challenges := s.authzs, s.orders, s.challenges;
    }

    ghost function Contents(): Store
      reads this
    {
      Store(authzs, orders, challenges)
    }

    method CreateSingleChallenge(a: string, kind: string, token: string, name: string) returns (shown: Listed)
      modifies this`challenges
      ensures challenges == old(challenges) + [NewChallenge(a, kind, token, name)]
      ensures shown == ShowNew(c, NewChallenge(a, kind, token, name))
      ensures var status := if kind == "sectigo-email-01" then Valid else Pending;
              && challenges == old(challenges) + [Challenge(name, ChallengeRow(a, kind, token, status))]
              && shown == Listed(kind, c.url + name,
                                 if kind in {"dns-persist-01", "sectigo-email-01"} then None else Some(token), status)
    {
      var row := NewChallenge(a, kind, token, name);
      challenges := challenges + [row];
      var tokenShown := Some(token);
      var status := Pending;
      if kind == DNS_PERSIST {
        tokenShown := None;
      } else if kind == SECTIGO {
        status := Valid;
        tokenShown := None;
      }
      shown := Listed(kind, c.url + name, tokenShown, status);
    }

    /** Creates one challenge after the other until the database fails. */
    method CreateChallenges(a: string, kinds: seq<string>, token: string, names: nat -> string, inserts: nat)
        returns (created: Created)
      modifies this`challenges
      ensures var rows := NewChallenges(a, kinds, token, names);
              if |kinds| <= inserts then
                challenges == old(challenges) + rows && created == Done(ShowAllNew(c, rows))
              else challenges == old(challenges) + rows[..inserts] && created == Failed
    {
      ghost var rows := NewChallenges(a, kinds, token, names);
      var shown: seq<Listed> := [];
      var i := 0;
      while i < |kinds|
        invariant i <= |kinds| && i <= inserts
        invariant challenges == old(challenges) + rows[..i]
        invariant shown == ShowAllNew(c, rows[..i])
      {
        if i == inserts {
          return Failed;
        }
        var one := CreateSingleChallenge(a, kinds[i], token, names(i));
        shown := shown + [one];
        assert rows[..i + 1] == rows[..i] + [rows[i]];
        i := i + 1;
      }
      assert rows[..|kinds|] == rows;
      return Done(shown);
    }

    /** The types in the order in which the code puts them together. */
    method ChallengeTypes(kind: string, value: string, wildcard: bool) returns (kinds: seq<string>)
      ensures kinds == Kinds(c, kind, value, wildcard)
      ensures kinds != [] && NoRepeats(kinds)
    {
      KindsFacts(c, kind, value, wildcard);
      if c.emailSupport && c.emailAddress != "" && '@' in value {
        return [EMAIL_REPLY];
      }
      if c.tnauthSupport && Lower(kind) == "tnauthlist" {
        return [TKAUTH];
      }
      kinds := [HTTP, DNS, TLS_ALPN];
      if Lower(kind) == "dns" && (wildcard || "*." <= value) {
        kinds := [DNS];
      } else if Lower(kind) == "ip" {
        assert Lower("ip") == "ip";
        kinds := [HTTP, TLS_ALPN];
      }
      if c.dnsPersist && Lower(kind) == "dns" {
        kinds := kinds + [DNS_PERSIST];
      }
      if c.sectigoSim {
        kinds := [SECTIGO] + kinds;
      }
    }

    method FindChallenges(a: string) returns (rows: seq<Challenge>)
      ensures rows == RowsOf(challenges, a)
    {
      rows := [];
      var i := 0;
      while i < |challenges|
        invariant i <= |challenges| && rows == RowsOf(challenges[..i], a)
      {
        assert challenges[..i + 1][..i] == challenges[..i];
        if challenges[i].row.authz == a {
          rows := rows + [challenges[i]];
        }
        i := i + 1;
      }
      assert challenges[..|challenges|] == challenges;
    }

    method FormatExisting(rows: seq<Challenge>) returns (shown: seq<Listed>)
      ensures shown == ShowAllKnown(c, rows)
      ensures |shown| == |rows| && forall i | 0 <= i < |rows| ::
                shown[i] == Listed(rows[i].row.kind, c.url + rows[i].name,
                                   if rows[i].row.kind == "dns-persist-01" then None else Some(rows[i].row.token),
                                   rows[i].row.status)
    {
      shown := [];
      var i := 0;
      while i < |rows|
        invariant i <= |rows| && shown == ShowAllKnown(c, rows[..i])
      {
        var row := rows[i].row;
        var token := Some(row.token);
        if row.kind == DNS_PERSIST {
          token := None;
        }
        shown := shown + [Listed(row.kind, c.url + rows[i].name, token, row.status)];
        assert rows[..i + 1] == rows[..i] + [rows[i]];
        i := i + 1;
      }
      assert rows[..|rows|] == rows;
    }

    method ChallengeSet(a: string, id: Identifier, token: string, out: Outside) returns (shown: seq<Listed>)
      modifies this`challenges
      ensures RowsOf(old(challenges), a) != [] ==>
                challenges == old(challenges) && shown == ShowAllKnown(c, RowsOf(challenges, a))
      ensures RowsOf(old(challenges), a) == [] ==>
                var rows := NewChallenges(a, KindsFor(c, id), token, out.names);
                if |rows| <= out.inserts then challenges == old(challenges) + rows && shown == ShowAllNew(c, rows)
                else challenges == old(challenges) + rows[..out.inserts] && shown == []
      ensures RowsOf(old(challenges), a) == [] && shown != [] ==>
                forall kind :: Lists(shown, kind) <==> Fits(c, id, kind)
    {
      var known := FindChallenges(a);
      if known != [] {
        shown := FormatExisting(known);
      } else {
        var kinds := ChallengeTypes(id.kind, Bare(id.value), "*." <= id.value);
        var created := CreateChallenges(a, kinds, token, out.names, out.inserts);
        // a failure is caught further up and answered with no challenge at all
        shown := if created.Done? then created.challenges else [];
        if created.Done? {
          PlannedAreListed(c, a, id, token, out.names);
        }
      }
    }

    method MarkValid(a: string)
      requires a in authzs
      modifies this`authzs, this`orders
      ensures Contents() == MarkedValid(old(Contents()), a)
      ensures authzs == old(authzs)[a := old(authzs)[a].(status := Valid)]
      ensures var o := old(authzs)[a].order;
              orders == if o in old(orders) then old(orders)[o := Ready] else old(orders)
    {
      authzs := authzs[a := authzs[a].(status := Valid)];
      var o := authzs[a].order;
      if o in orders {
        orders := orders[o := Ready];
      }
    }

    /** The token of an authorization, persisted when there is none yet. */
    method ResolveTokenAndExpiry(a: string, out: Outside) returns (token: string, expires: int)
      requires a in authzs
      modifies this`authzs
      ensures Contents() == WithToken(c, old(Contents()), a, out)
      ensures token == TokenOf(old(Contents()), a, out)
      ensures expires == ExpiresOf(c, old(Contents()), a, out)
      // a token that is there stays, with its expiry; otherwise both are made up and persisted
      ensures Strip(old(authzs)[a].token) != "" ==>
                && authzs == old(authzs) && token == Strip(old(authzs)[a].token)
                && expires == if old(authzs)[a].expires.Some? && old(authzs)[a].expires.value != 0
                              then old(authzs)[a].expires.value else out.now + c.validity
      ensures Strip(old(authzs)[a].token) == "" ==>
                && token == out.token && expires == out.now + c.validity
                && authzs == old(authzs)[a := old(authzs)[a].(token := out.token,
                                                              expires := Some(out.now + c.validity))]
    {
      token, expires := Strip(authzs[a].token), 0;
      if token != "" {
        expires := if authzs[a].expires.Some? && authzs[a].expires.value != 0 then authzs[a].expires.value
                   else out.now + c.validity;
      } else {
        token, expires := out.token, out.now + c.validity;
        authzs := authzs[a := authzs[a].(token := token, expires := Some(expires))];
      }
    }

    method GetAuthorizationDetails(a: string, out: Outside) returns (details: Option<Details>)
      modifies this
      ensures Contents() == AfterRead(c, old(Contents()), a, out)
      ensures details.Some? <==> a in old(authzs)
      ensures details.Some? ==>
                && details.value.expires == ExpiresOf(c, old(Contents()), a, out)
                && details.value.challenges == Shown(c, old(Contents()), a, out)
                && details.value.status == authzs[a].status
      // a set that is created here has exactly the types that fit the identifier
      ensures details.Some? && RowsOf(old(challenges), a) == [] && details.value.challenges != [] ==>
                forall kind :: Lists(details.value.challenges, kind) <==> Fits(c, old(authzs)[a].identifier, kind)
    {
      if a !in authzs {
        return None;
      }
      ghost var s := Contents();
      var token, expires := ResolveTokenAndExpiry(a, out);
      var row := authzs[a];
      if row.identifier.kind == "dns" && c.dnsPersist && c.jit && out.jitPasses {
        ReadEndsEarly(c, s, a, out);
        MarkValid(a);
        return Some(Details(expires, Valid, []));
      }
      var status := row.status;
      if OnList(c, row.identifier, out) && status != Valid {
        status := Valid;
        MarkValid(a);
      }
      assert Contents() == Shortcut(c, WithToken(c, s, a, out), a, out);
      var shown := ChallengeSet(a, row.identifier, token, out);
      ReadWithSet(c, s, a, out, challenges, shown);
      details := Some(Details(expires, status, shown));
    }
  }

  // ---------- many reads, and validations in between ----------

  /** Validations only ever write statuses. */
  datatype Action =
    | Read(authz: string, out: Outside)
    | AuthzStatus(name: string, status: Status)
    | ChallengeStatus(at: nat, status: Status)

  function Step(c: Config, s: Store, x: Action): Store {
    match x
    case Read(a, out) => AfterRead(c, s, a, out)
    case AuthzStatus(a, st) =>
      if a in s.authzs then s.(authzs := s.authzs[a := s.authzs[a].(status := st)]) else s
    case ChallengeStatus(i, st) =>
      if i < |s.challenges| then
        var ch := s.challenges[i];
        s.(challenges := s.challenges[i := ch.(row := ch.row.(status := st))])
      else s
  }

  function Run(c: Config, s: Store, xs: seq<Action>): Store {
    if xs == [] then s else Step(c, Run(c, s, xs[..|xs| - 1]), xs[|xs| - 1])
  }

  /** Random tokens have no spaces around them. */
  predicate Random(x: Action) {
    x.Read? ==> x.out.token != "" && Strip(x.out.token) == x.out.token
  }

  /** Every challenge carries the token of its authorization. */
  predicate Carried(s: Store) {
    forall i | 0 <= i < |s.challenges| :: CarriedAt(s, s.challenges[i])
  }

  predicate CarriedAt(s: Store, ch: Challenge) {
    ch.row.authz in s.authzs && ch.row.token != "" && ch.row.token == Strip(s.authzs[ch.row.authz].token)
  }

  /** Two rows differ in their status at most. */
  predicate SameBut(x: Challenge, y: Challenge) {
    x.name == y.name && x.row.authz == y.row.authz && x.row.kind == y.row.kind && x.row.token == y.row.token
  }

  predicate SameRows(xs: seq<Challenge>, ys: seq<Challenge>) {
    |xs| == |ys| && forall i | 0 <= i < |xs| :: SameBut(xs[i], ys[i])
  }

  lemma {:induction false} RowsOfSame(xs: seq<Challenge>, ys: seq<Challenge>, a: string)
    requires SameRows(xs, ys)
    ensures SameRows(RowsOf(xs, a), RowsOf(ys, a))
  {
    if xs != [] {
      RowsOfSame(xs[..|xs| - 1], ys[..|ys| - 1], a);
    }
  }

  lemma {:induction false} RowsOfAppend(xs: seq<Challenge>, ys: seq<Challenge>, a: string)
    ensures RowsOf(xs + ys, a) == RowsOf(xs, a) + RowsOf(ys, a)
  {
    if ys == [] {
      assert xs + ys == xs;
    } else {
      var n := |ys| - 1;
      assert (xs + ys)[..|xs + ys| - 1] == xs + ys[..n];
      RowsOfAppend(xs, ys[..n], a);
    }
  }

  lemma {:induction false} RowsOfAll(rows: seq<Challenge>, a: string, b: string)
    requires forall i | 0 <= i < |rows| :: rows[i].row.authz == b
    ensures RowsOf(rows, a) == if a == b then rows else []
  {
    if rows != [] {
      RowsOfAll(rows[..|rows| - 1], a, b);
      assert rows == rows[..|rows| - 1] + [rows[|rows| - 1]];
    }
  }

  lemma AddedRows(c: Config, s: Store, a: string, out: Outside)
    requires a in s.authzs
    ensures forall i | 0 <= i < |Added(c, s, a, out)| ::
              Added(c, s, a, out)[i].row.authz == a && Added(c, s, a, out)[i].row.token == TokenOf(s, a, out)
  {
  }

  lemma ReadKeepsToken(c: Config, s: Store, b: string, out: Outside, a: string)
    requires a in s.authzs && b in s.authzs
    ensures var t := AfterRead(c, s, b, out);
            && a in t.authzs
            && (Strip(s.authzs[a].token) != "" ==> t.authzs[a].token == s.authzs[a].token)
  {
  }

  lemma ReadKeepsRows(c: Config, s: Store, b: string, out: Outside, a: string)
    requires b in s.authzs && RowsOf(s.challenges, a) != []
    ensures RowsOf(AfterRead(c, s, b, out).challenges, a) == RowsOf(s.challenges, a)
  {
    var added := Added(c, s, b, out);
    AddedRows(c, s, b, out);
    RowsOfAppend(s.challenges, added, a);
    RowsOfAll(added, a, b);
  }

  /** One step changes no token that is there, and no row but its status; it adds rows only
      to an authorization that has none. */
  lemma StepKeeps(c: Config, s: Store, x: Action, a: string)
    requires a in s.authzs
    ensures var t := Step(c, s, x);
            && a in t.authzs
            && (Strip(s.authzs[a].token) != "" ==> t.authzs[a].token == s.authzs[a].token)
            && (RowsOf(s.challenges, a) != [] ==> SameRows(RowsOf(s.challenges, a), RowsOf(t.challenges, a)))
  {
    match x
    case Read(b, out) =>
      if b in s.authzs {
        ReadKeepsToken(c, s, b, out, a);
        if RowsOf(s.challenges, a) != [] {
          ReadKeepsRows(c, s, b, out, a);
        }
      }
    case _ =>
      assert SameRows(s.challenges, Step(c, s, x).challenges);
      RowsOfSame(s.challenges, Step(c, s, x).challenges, a);
  }

  lemma AddedIsCarried(c: Config, s: Store, a: string, out: Outside, i: nat)
    requires a in s.authzs && Random(Read(a, out)) && i < |Added(c, s, a, out)|
    ensures CarriedAt(AfterRead(c, s, a, out), Added(c, s, a, out)[i])
  {
    AddedRows(c, s, a, out);
  }

  lemma ReadCarries(c: Config, s: Store, a: string, out: Outside)
    requires Carried(s) && Random(Read(a, out)) && a in s.authzs
    ensures Carried(AfterRead(c, s, a, out))
  {
    var t := AfterRead(c, s, a, out);
    forall i | 0 <= i < |t.challenges| ensures CarriedAt(t, t.challenges[i]) {
      if i < |s.challenges| {
        assert t.challenges[i] == s.challenges[i] && CarriedAt(s, s.challenges[i]);
        ReadKeepsToken(c, s, a, out, s.challenges[i].row.authz);
      } else {
        AddedIsCarried(c, s, a, out, i - |s.challenges|);
      }
    }
  }

  lemma StatusCarries(c: Config, s: Store, x: Action)
    requires Carried(s) && !x.Read?
    ensures Carried(Step(c, s, x))
  {
    var t := Step(c, s, x);
    forall i | 0 <= i < |t.challenges| ensures CarriedAt(t, t.challenges[i]) {
      assert CarriedAt(s, s.challenges[i]);
    }
  }

  lemma StepCarries(c: Config, s: Store, x: Action)
    requires Carried(s) && Random(x)
    ensures Carried(Step(c, s, x))
  {
    if !x.Read? {
      StatusCarries(c, s, x);
    } else if x.authz in s.authzs {
      ReadCarries(c, s, x.authz, x.out);
    }
  }

  /** A persisted token is never replaced, whatever is read and validated afterwards, and
      every challenge row carries the token of its authorization. */
  lemma {:induction false} TokenIsPersistedOnce(c: Config, s: Store, xs: seq<Action>, a: string)
    requires Carried(s) && AllRandom(xs) && a in s.authzs
    ensures var t := Run(c, s, xs);
            && Carried(t)
            && a in t.authzs
            && (Strip(s.authzs[a].token) != "" ==> t.authzs[a].token == s.authzs[a].token)
            && (RowsOf(s.challenges, a) != [] ==> SameRows(RowsOf(s.challenges, a), RowsOf(t.challenges, a)))
  {
    if xs != [] {
      var before, x := xs[..|xs| - 1], xs[|xs| - 1];
      TokenIsPersistedOnce(c, s, before, a);
      StepKeeps(c, Run(c, s, before), x, a);
      StepCarries(c, Run(c, s, before), x);
    }
  }

  predicate AllRandom(xs: seq<Action>) {
    forall i | 0 <= i < |xs| :: Random(xs[i])
  }

  /** The read is not cut short by just-in-time validation or a database failure. */
  predicate CreatesAll(c: Config, s: Store, a: string, out: Outside) {
    a in s.authzs && !JustInTime(c, s.authzs[a], out) && |KindsFor(c, s.authzs[a].identifier)| <= out.inserts
  }

  predicate Rereads(c: Config, s: Store, a: string, first: Outside, xs: seq<Action>, later: Outside) {
    var mid := Run(c, AfterRead(c, s, a, first), xs);
    a in mid.authzs && !JustInTime(c, mid.authzs[a], later)
  }

  predicate SameFields(x: Listed, y: Listed) {
    x.kind == y.kind && x.url == y.url && x.token == y.token
  }

  lemma RowsCreated(c: Config, s: Store, a: string, out: Outside)
    requires a in s.authzs && RowsOf(s.challenges, a) == []
    ensures RowsOf(AfterRead(c, s, a, out).challenges, a) == Added(c, s, a, out)
  {
    var added := Added(c, s, a, out);
    AddedRows(c, s, a, out);
    RowsOfAppend(s.challenges, added, a);
    RowsOfAll(added, a, a);
  }

  lemma AllShown(c: Config, s: Store, a: string, out: Outside)
    requires CreatesAll(c, s, a, out) && RowsOf(s.challenges, a) == []
    ensures Added(c, s, a, out) != [] && Shown(c, s, a, out) == ShowAllNew(c, Added(c, s, a, out))
  {
    var id := s.authzs[a].identifier;
    KindsFacts(c, id.kind, Bare(id.value), "*." <= id.value);
  }

  lemma SetReread(c: Config, s: Store, a: string, out: Outside)
    requires a in s.authzs && RowsOf(s.challenges, a) != [] && !JustInTime(c, s.authzs[a], out)
    ensures AfterRead(c, s, a, out).challenges == s.challenges
    ensures Shown(c, s, a, out) == ShowAllKnown(c, RowsOf(s.challenges, a))
  {
    assert s.challenges + [] == s.challenges;
  }

  lemma ShownAlike(c: Config, x: Challenge, y: Challenge)
    requires SameBut(x, y)
    ensures ShowNew(c, x).kind == ShowKnown(c, y).kind && ShowNew(c, x).url == ShowKnown(c, y).url
    ensures SameFields(ShowNew(c, x), ShowKnown(c, y)) <==> x.row.kind != SECTIGO
  {
  }

  /** The same types and URLs in the same order, and the same tokens exactly for the types
      other than sectigo-email-01. */
  predicate Stable(one: seq<Listed>, two: seq<Listed>) {
    && |one| == |two|
    && (forall i | 0 <= i < |one| :: one[i].kind == two[i].kind && one[i].url == two[i].url)
    && (forall i | 0 <= i < |one| :: SameFields(one[i], two[i]) <==> one[i].kind != SECTIGO)
  }

  lemma ShownIsStable(c: Config, xs: seq<Challenge>, ys: seq<Challenge>)
    requires SameRows(xs, ys)
    ensures Stable(ShowAllNew(c, xs), ShowAllKnown(c, ys))
  {
    var one, two := ShowAllNew(c, xs), ShowAllKnown(c, ys);
    forall i | 0 <= i < |xs|
      ensures one[i].kind == two[i].kind && one[i].url == two[i].url
      ensures SameFields(one[i], two[i]) <==> one[i].kind != SECTIGO
    {
      ShownAlike(c, xs[i], ys[i]);
    }
  }

  /** The read that creates a challenge set and every later read that is not cut short by
      just-in-time validation list the same challenges, but for the token of
      sectigo-email-01; the later read adds no row. */
  lemma LaterReadsAgree(c: Config, s: Store, a: string, first: Outside, xs: seq<Action>, later: Outside)
    requires Carried(s) && a in s.authzs && RowsOf(s.challenges, a) == []
    requires Random(Read(a, first)) && AllRandom(xs)
    requires CreatesAll(c, s, a, first)
    requires Rereads(c, s, a, first, xs, later)
    ensures var mid := Run(c, AfterRead(c, s, a, first), xs);
            && AfterRead(c, mid, a, later).challenges == mid.challenges
            && Shown(c, s, a, first) != []
            && Stable(Shown(c, s, a, first), Shown(c, mid, a, later))
  {
    var t, added := AfterRead(c, s, a, first), Added(c, s, a, first);
    ReadCarries(c, s, a, first);
    RowsCreated(c, s, a, first);
    AllShown(c, s, a, first);
    TokenIsPersistedOnce(c, t, xs, a);
    var mid := Run(c, t, xs);
    SetReread(c, mid, a, later);
    ShownIsStable(c, added, RowsOf(mid.challenges, a));
  }

  /** When the database fails while a set is created, the rows inserted so far are all the
      authorization will ever have. */
  lemma PartialSetStays(c: Config, s: Store, a: string, first: Outside, xs: seq<Action>)
    requires Carried(s) && a in s.authzs && RowsOf(s.challenges, a) == []
    requires Random(Read(a, first)) && AllRandom(xs)
    requires !JustInTime(c, s.authzs[a], first) && 0 < first.inserts < |KindsFor(c, s.authzs[a].identifier)|
    ensures var t := AfterRead(c, s, a, first);
            && Shown(c, s, a, first) == []
            && |RowsOf(Run(c, t, xs).challenges, a)| == first.inserts
  {
    var t := AfterRead(c, s, a, first);
    ReadCarries(c, s, a, first);
    RowsCreated(c, s, a, first);
    TokenIsPersistedOnce(c, t, xs, a);
  }

  // ---------- which types an authorization can ever have ----------

  /** The types that an identifier gets, as its text and the configuration decide. */
  predicate Fits(c: Config, id: Identifier, kind: string) {
    if c.emailSupport && c.emailAddress != "" && '@' in id.value then kind == "email-reply-00"
    else if c.tnauthSupport && Lower(id.kind) == "tnauthlist" then kind == "tkauth-01"
    else
      || (kind == "dns-01" && Lower(id.kind) != "ip")
      || (kind == "http-01" && !(Lower(id.kind) == "dns" && "*." <= id.value))
      || (kind == "tls-alpn-01" && !(Lower(id.kind) == "dns" && "*." <= id.value))
      || (kind == "dns-persist-01" && c.dnsPersist && Lower(id.kind) == "dns")
      || (kind == "sectigo-email-01" && c.sectigoSim)
  }

  lemma BareKeepsAt(value: string)
    ensures '@' in Bare(value) <==> '@' in value
    ensures "*." <= Bare(value) ==> "*." <= value
  {
    if "*." <= value {
      assert value == "*." + value[2..];
      assert '@' !in "*.";
    }
  }

  /** The planned types are those that fit; the flag for wildcards survives the cutting off. */
  lemma PlannedFit(c: Config, id: Identifier, kind: string)
    ensures kind in KindsFor(c, id) <==> Fits(c, id, kind)
  {
    BareKeepsAt(id.value);
    KindsFacts(c, id.kind, Bare(id.value), "*." <= id.value);
    OnlyNamedKinds(c, id.kind, Bare(id.value), "*." <= id.value, kind);
  }

  lemma PlannedAreListed(c: Config, a: string, id: Identifier, token: string, names: nat -> string)
    ensures var shown := ShowAllNew(c, NewChallenges(a, KindsFor(c, id), token, names));
            forall kind :: Lists(shown, kind) <==> Fits(c, id, kind)
  {
    var kinds := KindsFor(c, id);
    var shown := ShowAllNew(c, NewChallenges(a, kinds, token, names));
    assert |shown| == |kinds| && forall i | 0 <= i < |kinds| :: shown[i].kind == kinds[i];
    forall kind ensures Lists(shown, kind) <==> Fits(c, id, kind) {
      PlannedFit(c, id, kind);
    }
  }

  lemma OnlyNamedKinds(c: Config, kind: string, value: string, wildcard: bool, k: string)
    ensures k in Kinds(c, kind, value, wildcard) ==>
              k in {HTTP, DNS, TLS_ALPN, DNS_PERSIST, EMAIL_REPLY, TKAUTH, SECTIGO}
  {
  }

  /** No read and no validation gives an authorization another identifier. */
  lemma StepKeepsIdentifier(c: Config, s: Store, x: Action, a: string)
    requires a in s.authzs
    ensures a in Step(c, s, x).authzs && Step(c, s, x).authzs[a].identifier == s.authzs[a].identifier
  {
  }

  /** All challenges of an authorization are of types that fit its identifier. */
  predicate AllFit(c: Config, s: Store, a: string)
    requires a in s.authzs
  {
    forall i | 0 <= i < |s.challenges| && s.challenges[i].row.authz == a ::
      Fits(c, s.authzs[a].identifier, s.challenges[i].row.kind)
  }

  lemma AddedFit(c: Config, s: Store, b: string, out: Outside, i: nat)
    requires b in s.authzs && i < |Added(c, s, b, out)|
    ensures var ch := Added(c, s, b, out)[i];
            ch.row.authz == b && Fits(c, s.authzs[b].identifier, ch.row.kind)
  {
    var kinds := KindsFor(c, s.authzs[b].identifier);
    assert kinds[i] in kinds && Added(c, s, b, out)[i].row.kind == kinds[i];
    PlannedFit(c, s.authzs[b].identifier, kinds[i]);
  }

  lemma ReadAddsFitting(c: Config, s: Store, b: string, out: Outside, a: string)
    requires a in s.authzs && b in s.authzs && AllFit(c, s, a)
    ensures a in AfterRead(c, s, b, out).authzs && AllFit(c, AfterRead(c, s, b, out), a)
  {
    var t := AfterRead(c, s, b, out);
    StepKeepsIdentifier(c, s, Read(b, out), a);
    forall i | 0 <= i < |t.challenges| && t.challenges[i].row.authz == a
      ensures Fits(c, t.authzs[a].identifier, t.challenges[i].row.kind)
    {
      if i >= |s.challenges| {
        AddedFit(c, s, b, out, i - |s.challenges|);
      } else {
        assert t.challenges[i] == s.challenges[i];
      }
    }
  }

  lemma StepAddsFitting(c: Config, s: Store, x: Action, a: string)
    requires a in s.authzs && AllFit(c, s, a)
    ensures a in Step(c, s, x).authzs && AllFit(c, Step(c, s, x), a)
  {
    match x
    case Read(b, out) =>
      if b in s.authzs {
        ReadAddsFitting(c, s, b, out, a);
      }
    case AuthzStatus(_, _) =>
    case ChallengeStatus(i, st) =>
      var t := Step(c, s, x);
      forall j | 0 <= j < |t.challenges| && t.challenges[j].row.authz == a
        ensures Fits(c, t.authzs[a].identifier, t.challenges[j].row.kind)
      {
        assert s.challenges[j].row.kind == t.challenges[j].row.kind;
      }
  }

  /** An authorization that starts without challenges only ever has, and only ever lists,
      challenges of types that fit its identifier. */
  lemma {:induction false} ChallengesFit(c: Config, s: Store, xs: seq<Action>, a: string)
    requires a in s.authzs && forall i | 0 <= i < |s.challenges| :: s.challenges[i].row.authz != a
    ensures var t := Run(c, s, xs);
            && a in t.authzs && t.authzs[a].identifier == s.authzs[a].identifier
            && AllFit(c, t, a)
  {
    if xs != [] {
      ChallengesFit(c, s, xs[..|xs| - 1], a);
      StepAddsFitting(c, Run(c, s, xs[..|xs| - 1]), xs[|xs| - 1], a);
      StepKeepsIdentifier(c, Run(c, s, xs[..|xs| - 1]), xs[|xs| - 1], a);
    }
  }

  lemma {:induction false} RowsOfAre(rows: seq<Challenge>, a: string, ch: Challenge)
    ensures ch in RowsOf(rows, a) <==> ch in rows && ch.row.authz == a
  {
    if rows != [] {
      RowsOfAre(rows[..|rows| - 1], a, ch);
      assert rows == rows[..|rows| - 1] + [rows[|rows| - 1]];
    }
  }

  lemma ShownFit(c: Config, s: Store, a: string, out: Outside, j: nat)
    requires a in s.authzs && AllFit(c, s, a) && j < |Shown(c, s, a, out)|
    ensures Fits(c, s.authzs[a].identifier, Shown(c, s, a, out)[j].kind)
  {
    var known := RowsOf(s.challenges, a);
    if known != [] {
      RowsOfAre(s.challenges, a, known[j]);
      var i :| 0 <= i < |s.challenges| && s.challenges[i] == known[j];
    } else {
      AddedFit(c, s, a, out, j);
    }
  }

  lemma WildcardFacts(c: Config, id: Identifier)
    requires Lower(id.kind) == "dns" && "*." <= id.value
    requires !(c.emailSupport && c.emailAddress != "" && '@' in id.value)
    ensures !Fits(c, id, "http-01") && !Fits(c, id, "tls-alpn-01") && Fits(c, id, "dns-01")
  {
    KindNamesDiffer();
    var all := [SECTIGO, HTTP, DNS, TLS_ALPN, DNS_PERSIST, EMAIL_REPLY, TKAUTH];
    assert forall i, j | 0 <= i < j < 7 :: all[i] != all[j];
    assert all[0] == SECTIGO && all[1] == HTTP && all[2] == DNS && all[3] == TLS_ALPN && all[4] == DNS_PERSIST;
    KindPrefixesDiffer("dns");
  }

  predicate Lists(shown: seq<Listed>, kind: string) {
    exists j :: 0 <= j < |shown| && shown[j].kind == kind
  }

  lemma CreatesSomething(c: Config, s: Store, a: string, out: Outside)
    requires a in s.authzs && RowsOf(s.challenges, a) == []
    requires out.inserts >= 5 && !JustInTime(c, s.authzs[a], out)
    ensures Shown(c, s, a, out) != []
  {
    var id := s.authzs[a].identifier;
    KindsFacts(c, id.kind, Bare(id.value), "*." <= id.value);
    assert |KindsFor(c, id)| <= 5;
  }

  /** The read that creates a set lists every type that fits, and no other; it lists nothing
      at all only when it ends with just-in-time validation or at a database failure. */
  lemma FirstReadListsAllThatFit(c: Config, s: Store, a: string, out: Outside)
    requires a in s.authzs && forall i | 0 <= i < |s.challenges| :: s.challenges[i].row.authz != a
    ensures var shown, id := Shown(c, s, a, out), s.authzs[a].identifier;
            && (shown != [] ==> forall kind :: Lists(shown, kind) <==> Fits(c, id, kind))
            && (out.inserts >= 5 && !(id.kind == "dns" && c.dnsPersist && c.jit && out.jitPasses) ==> shown != [])
  {
    var shown, id := Shown(c, s, a, out), s.authzs[a].identifier;
    NoRowsOf(s.challenges, a);
    if out.inserts >= 5 && !JustInTime(c, s.authzs[a], out) {
      CreatesSomething(c, s, a, out);
    }
    if shown != [] {
      assert shown == ShowAllNew(c, NewChallenges(a, KindsFor(c, id), TokenOf(s, a, out), out.names));
      PlannedAreListed(c, a, id, TokenOf(s, a, out), out.names);
    }
  }

  lemma NoRowsOf(rows: seq<Challenge>, a: string)
    requires forall i | 0 <= i < |rows| :: rows[i].row.authz != a
    ensures RowsOf(rows, a) == []
  {
    if RowsOf(rows, a) != [] {
      RowsOfAre(rows, a, RowsOf(rows, a)[0]);
    }
  }

  /** A wildcard name is never offered, and never has, a challenge over HTTP or TLS: in every
      run of reads and validations from a store without challenges of its authorization. */
  lemma WildcardIsProvedByDns(c: Config, s: Store, xs: seq<Action>, a: string, out: Outside)
    requires a in s.authzs && forall i | 0 <= i < |s.challenges| :: s.challenges[i].row.authz != a
    requires Lower(s.authzs[a].identifier.kind) == "dns" && "*." <= s.authzs[a].identifier.value
    requires !(c.emailSupport && c.emailAddress != "" && '@' in s.authzs[a].identifier.value)
    ensures var t := Run(c, s, xs);
            && a in t.authzs
            && (forall i | 0 <= i < |t.challenges| && t.challenges[i].row.authz == a ::
                  t.challenges[i].row.kind != "http-01" && t.challenges[i].row.kind != "tls-alpn-01")
            && (forall j | 0 <= j < |Shown(c, t, a, out)| ::
                  Shown(c, t, a, out)[j].kind != "http-01" && Shown(c, t, a, out)[j].kind != "tls-alpn-01")
    ensures Shown(c, s, a, out) != [] ==> Lists(Shown(c, s, a, out), "dns-01")
  {
    ChallengesFit(c, s, xs, a);
    var t, id := Run(c, s, xs), s.authzs[a].identifier;
    WildcardFacts(c, id);
    FirstReadListsAllThatFit(c, s, a, out);
    forall j | 0 <= j < |Shown(c, t, a, out)| ensures Fits(c, id, Shown(c, t, a, out)[j].kind) {
      ShownFit(c, t, a, out, j);
    }
  }

  /** Any other dns name is offered all three standard types when its set is created. */
  lemma PlainNameIsOfferedAllThree(c: Config, s: Store, a: string, out: Outside)
    requires a in s.authzs && forall i | 0 <= i < |s.challenges| :: s.challenges[i].row.authz != a
    requires Lower(s.authzs[a].identifier.kind) == "dns" && !("*." <= s.authzs[a].identifier.value)
    requires !(c.emailSupport && c.emailAddress != "" && '@' in s.authzs[a].identifier.value)
    requires Shown(c, s, a, out) != []
    ensures Lists(Shown(c, s, a, out), "http-01") && Lists(Shown(c, s, a, out), "dns-01")
    ensures Lists(Shown(c, s, a, out), "tls-alpn-01")
  {
    FirstReadListsAllThatFit(c, s, a, out);
    KindPrefixesDiffer("dns");
  }

  // ---------- the read in columns ----------

  /** The list that holds the identifier: addresses for ip, mails for email - and for what has an
      `@` among dns names, where those are rewritten - and domains for all other dns names. */
  lemma ListedInTexts(c: Config, id: Identifier, out: Outside)
    ensures var v := if "*." <= id.value then id.value[2..] else id.value;
            OnList(c, id, out) <==>
              && v != ""
              && if '@' in v && (id.kind == "email" || (id.kind == "dns" && c.emailRewrite)) then out.listed(Mails, v)
                 else if id.kind == "dns" then out.listed(Domains, v)
                 else id.kind == "ip" && out.listed(Addresses, v)
  {
    assert "email"[0] == 'e' && "dns"[0] == 'd' && "ip"[0] == 'i';
  }

  /** What a read writes to the authorization and to its order: a token and an expiry where the
      token is missing, and the shortcut where just-in-time validation passes or a list holds the
      identifier of an authorization that is not valid yet. */
  lemma ReadInColumns(c: Config, s: Store, a: string, out: Outside)
    requires a in s.authzs
    ensures var t, row := AfterRead(c, s, a, out), s.authzs[a];
            var jit := row.identifier.kind == "dns" && c.dnsPersist && c.jit && out.jitPasses;
            var short := jit || (OnList(c, row.identifier, out) && row.status != Valid);
            && t.authzs == s.authzs[a := AuthzRow(
                 row.order, row.identifier, if short then Valid else row.status,
                 if Strip(row.token) != "" then row.expires else Some(out.now + c.validity),
                 if Strip(row.token) != "" then row.token else out.token)]
            && t.orders == (if short && row.order in s.orders then s.orders[row.order := Ready] else s.orders)
            && s.challenges <= t.challenges
            && (jit ==> t.challenges == s.challenges && Shown(c, s, a, out) == [])
            && (forall i | |s.challenges| <= i < |t.challenges| ::
                  t.challenges[i].row.authz == a
                  && t.challenges[i].row.token == if Strip(row.token) != "" then Strip(row.token) else out.token)
  {
    AddedRows(c, s, a, out);
  }
}
