/** Comparison of the names in a CSR with the identifiers of its order. */
module Binding {
  import opened AcmeTables

  type BoundName = (string, string)

  function LowerChar(c: char): char {
    if 'A' <= c <= 'Z' then (c as int + 32) as char else c
  }

  function Lower(s: string): (r: string)
    ensures |r| == |s|
    ensures forall i | 0 <= i < |s| :: r[i] == LowerChar(s[i])
  {
    seq(|s|, i requires 0 <= i < |s| => LowerChar(s[i]))
  }

  /** Lower-casing letter by letter: the alphabet itself, and nothing else. */
  lemma LettersAreLowered(c: char)
    ensures forall i | 0 <= i < 26 ::
              LowerChar("ABCDEFGHIJKLMNOPQRSTUVWXYZ"[i]) == "abcdefghijklmnopqrstuvwxyz"[i]
    ensures c !in "ABCDEFGHIJKLMNOPQRSTUVWXYZ" ==> LowerChar(c) == c
  {
    if 'A' <= c <= 'Z' {
      assert "ABCDEFGHIJKLMNOPQRSTUVWXYZ"[c as int - 65] == c;
    }
  }

  /** The white space of ASCII: tab to carriage return, the four separators, and the blank. */
  predicate IsSpace(ch: char) {
    9 <= ch as int <= 13 || 28 <= ch as int <= 32
  }

  function Strip(s: string): string {
    if s == "" then ""
    else if IsSpace(s[0]) then Strip(s[1..])
    else if IsSpace(s[|s| - 1]) then Strip(s[..|s| - 1])
    else s
  }

  predicate AllSpace(s: string) {
    forall i | 0 <= i < |s| :: 9 <= s[i] as int <= 13 || 28 <= s[i] as int <= 32
  }

  lemma AllSpaceJoin(x: string, y: string)
    ensures AllSpace(x + y) <==> AllSpace(x) && AllSpace(y)
  {
    var all := x + y;
    assert forall i | 0 <= i < |x| :: all[i] == x[i];
    assert forall i | 0 <= i < |y| :: all[|x| + i] == y[i];
  }

  lemma {:induction false} StripLeavesNoSpace(s: string)
    ensures Strip(s) != "" ==> !IsSpace(Strip(s)[0]) && !IsSpace(Strip(s)[|Strip(s)| - 1])
  {
    if s != "" {
      if IsSpace(s[0]) {
        StripLeavesNoSpace(s[1..]);
      } else if IsSpace(s[|s| - 1]) {
        StripLeavesNoSpace(s[..|s| - 1]);
      }
    }
  }

  lemma OneSpace(c: char)
    ensures AllSpace([c]) <==> IsSpace(c)
  {
    assert [c][0] == c;
  }

  lemma {:induction false} StripParts(s: string) returns (before: string, after: string)
    ensures s == before + Strip(s) + after && AllSpace(before) && AllSpace(after)
  {
    before, after := "", "";
    if s != "" && IsSpace(s[0]) {
      before, after := StripParts(s[1..]);
      OneSpace(s[0]);
      AllSpaceJoin([s[0]], before);
      assert s == [s[0]] + (before + Strip(s[1..]) + after) == ([s[0]] + before) + Strip(s[1..]) + after;
      before := [s[0]] + before;
    } else if s != "" && IsSpace(s[|s| - 1]) {
      var last := s[|s| - 1];
      before, after := StripParts(s[..|s| - 1]);
      OneSpace(last);
      AllSpaceJoin(after, [last]);
      assert s == (before + Strip(s[..|s| - 1]) + after) + [last] == before + Strip(s[..|s| - 1]) + (after + [last]);
      after := after + [last];
    }
  }

  /** Stripping cuts off white space at both ends, and all of it. */
  lemma StripCutsSpace(s: string) returns (before: string, after: string)
    ensures s == before + Strip(s) + after && AllSpace(before) && AllSpace(after)
    ensures Strip(s) != "" ==> !AllSpace([Strip(s)[0]]) && !AllSpace([Strip(s)[|Strip(s)| - 1]])
  {
    before, after := StripParts(s);
    StripLeavesNoSpace(s);
    if Strip(s) != "" {
      OneSpace(Strip(s)[0]);
      OneSpace(Strip(s)[|Strip(s)| - 1]);
    }
  }

  /** How names are compared: whether values with an `@` are typed as email, and the address
      parser, which gives the canonical text of an address, or None when a text is none. */
  datatype Rules = Rules(emailRewrite: bool, canonIp: string -> Option<string>)

  function Normalize(name: Identifier, rules: Rules): Option<BoundName> {
    if name.kind == "" || name.value == "" then None
    else
      var kind, value, address := Lower(name.kind), Lower(name.value), rules.canonIp(Strip(name.value));
      if rules.emailRewrite && '@' in value then Some(("email", value))
      else if kind == "ip" && address.Some? then Some((kind, address.value))
      else Some((kind, value))
  }

  /** The stored identifier text is lower-cased before it is parsed. */
  function LowerIdentifier(i: Identifier): Identifier {
    Identifier(Lower(i.kind), Lower(i.value))
  }

  function OrderNames(ids: seq<Identifier>, rules: Rules): set<BoundName> {
    set k | 0 <= k < |ids| && Normalize(LowerIdentifier(ids[k]), rules).Some?
      :: Normalize(LowerIdentifier(ids[k]), rules).value
  }

  predicate StrictMatch(orderNames: set<BoundName>, csrNames: set<BoundName>) {
    (orderNames != {} || csrNames != {}) && orderNames == csrNames
  }

  /** Position of the first colon, or the length when there is none. */
  function ColonAt(s: string): (k: nat)
    ensures k <= |s|
    ensures ':' !in s[..k]
    ensures k < |s| ==> s[k] == ':'
  {
    if s == "" then 0
    else if s[0] == ':' then 0
    else
      var k := 1 + ColonAt(s[1..]);
      assert s[..k] == [s[0]] + s[1..][..k - 1];
      k
  }

  /** `TYPE:value` split at the first colon. */
  function SplitSan(san: string): Option<BoundName> {
    var k := ColonAt(san);
    if k < |san| then Some((san[..k], san[k + 1..])) else None
  }

  /** Whether one SAN entry equals one of the (lower-cased) identifiers. */
  predicate SanMatches(ids: seq<Identifier>, san: string) {
    var s := SplitSan(Lower(san));
    && s.Some?
    && s.value.0 != "" && s.value.1 != ""
    && exists k :: 0 <= k < |ids| && Lower(ids[k].kind) == s.value.0 && Lower(ids[k].value) == s.value.1
  }

  predicate LegacyMatch(ids: seq<Identifier>, sans: seq<string>) {
    sans != [] && forall k | 0 <= k < |sans| :: SanMatches(ids, sans[k])
  }

  predicate HasTnauth(ids: seq<Identifier>) {
    exists k :: 0 <= k < |ids| && Lower(ids[k].kind) == "tnauthlist"
  }

  // ---------- the legacy comparison as the code runs it ----------

  method CheckIdentifierMatch(name: Option<BoundName>, ids: seq<Identifier>) returns (found: bool)
    ensures found <==>
              && name.Some? && name.value.0 != "" && name.value.1 != ""
              && exists k :: 0 <= k < |ids| && Lower(ids[k].kind) == name.value.0 && Lower(ids[k].value) == name.value.1
  {
    found := false;
    if name.Some? && name.value.0 != "" && name.value.1 != "" {
      var k := 0;
      while k < |ids|
        invariant k <= |ids|
        invariant forall j | 0 <= j < k :: !(Lower(ids[j].kind) == name.value.0 && Lower(ids[j].value) == name.value.1)
      {
        if Lower(ids[k].kind) == name.value.0 && Lower(ids[k].value) == name.value.1 {
          return true;
        }
        k := k + 1;
      }
    }
  }

  /** One verdict for each SAN, or a single refusal when there is none. */
  method MatchSansToIdentifiers(ids: seq<Identifier>, sans: seq<string>) returns (status: seq<bool>)
    ensures status != [] && (false !in status <==> LegacyMatch(ids, sans))
    ensures sans != [] ==> |status| == |sans| && forall k | 0 <= k < |sans| :: status[k] == SanMatches(ids, sans[k])
  {
    status := [];
    var k := 0;
    while k < |sans|
      invariant k <= |sans| && |status| == k
      invariant forall j | 0 <= j < k :: status[j] == SanMatches(ids, sans[j])
    {
      var found := CheckIdentifierMatch(SplitSan(Lower(sans[k])), ids);
      status := status + [found];
      k := k + 1;
    }
    if status == [] {
      status := [false];
    }
    assert forall j | 0 <= j < |status| :: status[j] in status;
  }

  // ---------- the names of a CSR ----------

  /** What is read out of a CSR: its SANs by type, addresses in their canonical text, and
      the common name of its subject, empty when there is none. */
  datatype Csr = Csr(dns: seq<string>, ips: seq<string>, emails: seq<string>, cn: string)

  function Tagged(tag: string, values: seq<string>): (sans: seq<string>)
    ensures |sans| == |values| && forall i | 0 <= i < |values| :: sans[i] == tag + ":" + values[i]
  {
    seq(|values|, i requires 0 <= i < |values| => tag + ":" + values[i])
  }

  /** The SAN list, `TYPE:value` for each entry. */
  function Sans(csr: Csr): seq<string> {
    Tagged("DNS", csr.dns) + Tagged("IP", csr.ips) + Tagged("EMAIL", csr.emails)
  }

  function SanName(san: string, rules: Rules): Option<BoundName> {
    var s := SplitSan(san);
    if s.None? then None else Normalize(Identifier(s.value.0, s.value.1), rules)
  }

  function CnKind(cn: string, rules: Rules): string {
    if '@' in cn then "email" else if rules.canonIp(cn).Some? then "ip" else "dns"
  }

  function CnName(cn: string, rules: Rules): Option<BoundName> {
    Normalize(Identifier(CnKind(cn, rules), cn), rules)
  }

  function SanNames(sans: seq<string>, rules: Rules): set<BoundName> {
    set k | 0 <= k < |sans| && SanName(sans[k], rules).Some? :: SanName(sans[k], rules).value
  }

  function CsrNames(csr: Csr, rules: Rules): set<BoundName> {
    var cn := CnName(csr.cn, rules);
    SanNames(Sans(csr), rules) + (if cn.Some? then {cn.value} else {})
  }

  predicate Strict(ids: seq<Identifier>, csr: Csr, rules: Rules) {
    StrictMatch(OrderNames(ids, rules), CsrNames(csr, rules))
  }

  predicate Legacy(ids: seq<Identifier>, csr: Csr) {
    LegacyMatch(ids, Sans(csr))
  }

  // ---------- the strict comparison as the code runs it ----------

  method SanListToBoundNames(sans: seq<string>, rules: Rules)
    returns (names: set<BoundName>)
    ensures names == SanNames(sans, rules)
  {
    names := {};
    var k := 0;
    assert sans[..0] == [];
    while k < |sans|
      invariant k <= |sans| && names == SanNames(sans[..k], rules)
    {
      OneMoreSan(sans[..k], sans[k], rules);
      assert sans[..k + 1] == sans[..k] + [sans[k]];
      var name := SanName(sans[k], rules);
      names := names + (if name.Some? then {name.value} else {});
      k := k + 1;
    }
    assert sans[..|sans|] == sans;
  }

  method CsrBoundNamesGet(csr: Csr, rules: Rules)
    returns (names: set<BoundName>)
    ensures names == CsrNames(csr, rules)
  {
    names := SanListToBoundNames(Sans(csr), rules);
    var cn := CnName(csr.cn, rules);
    if cn.Some? {
      names := names + {cn.value};
    }
  }

  lemma OneMoreSan(sans: seq<string>, san: string, rules: Rules)
    ensures var n := SanName(san, rules);
            SanNames(sans + [san], rules)
              == SanNames(sans, rules) + (if n.Some? then {n.value} else {})
  {
    var all := sans + [san];
    assert all[|sans|] == san && forall k | 0 <= k < |sans| :: all[k] == sans[k];
    forall n ensures n in SanNames(all, rules) <==>
        n in SanNames(sans, rules) || SanName(san, rules) == Some(n) {
      if SanName(san, rules) == Some(n) {
        assert SanName(all[|sans|], rules) == Some(n);
      }
      if n in SanNames(sans, rules) {
        var k :| 0 <= k < |sans| && SanName(sans[k], rules) == Some(n);
        assert SanName(all[k], rules) == Some(n);
      }
    }
  }

  method OrderIdentifierSet(ids: seq<Identifier>, rules: Rules)
    returns (names: set<BoundName>)
    ensures names == OrderNames(ids, rules)
  {
    names := {};
    var k := 0;
    while k < |ids|
      invariant k <= |ids|
      invariant forall n :: n in names <==> NamedUpTo(ids, k, rules, n)
    {
      var name := Normalize(LowerIdentifier(ids[k]), rules);
      if name.Some? {
        names := names + {name.value};
      }
      k := k + 1;
    }
    forall n ensures n in names <==> n in OrderNames(ids, rules) {
      OrderNameIsNamed(ids, rules, n);
    }
  }

  /** One of the first k identifiers has this normalised name. */
  predicate NamedUpTo(ids: seq<Identifier>, k: nat, rules: Rules, n: BoundName) {
    exists i :: 0 <= i < k && i < |ids| && Normalize(LowerIdentifier(ids[i]), rules) == Some(n)
  }

  lemma OrderNameIsNamed(ids: seq<Identifier>, rules: Rules, n: BoundName)
    ensures n in OrderNames(ids, rules) <==> NamedUpTo(ids, |ids|, rules, n)
  {
    if i :| 0 <= i < |ids| && Normalize(LowerIdentifier(ids[i]), rules) == Some(n) {
      assert Normalize(LowerIdentifier(ids[i]), rules).value == n;
    }
  }
}
