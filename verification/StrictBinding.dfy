/** How the strict comparison of the names in a CSR relates to the legacy one. */
module StrictBinding {
  import opened AcmeTables
  import opened Binding

  // ---------- both comparisons, SAN type by SAN type ----------

  /** Some identifier of the order reads like this name, both parts non-empty. */
  predicate ReadsLike(ids: seq<Identifier>, n: BoundName) {
    n.0 != "" && n.1 != "" && exists k :: 0 <= k < |ids| && Lower(ids[k].kind) == n.0 && Lower(ids[k].value) == n.1
  }

  predicate AllRead(ids: seq<Identifier>, kind: string, values: seq<string>) {
    forall v | v in values :: ReadsLike(ids, (kind, Lower(v)))
  }

  lemma SanOfType(ids: seq<Identifier>, tag: string, kind: string, value: string, rules: Rules)
    requires ':' !in tag && kind == Lower(tag) && kind != ""
    ensures SanName(tag + ":" + value, rules) == Normalize(Identifier(tag, value), rules)
    ensures SanMatches(ids, tag + ":" + value) <==> ReadsLike(ids, (kind, Lower(value)))
  {
    SplitAt(tag, value);
    assert Lower(tag + ":" + value) == kind + ":" + Lower(value);
    forall i | 0 <= i < |tag| ensures kind[i] != ':' {
      assert tag[i] in tag;
    }
    SplitAt(kind, Lower(value));
  }

  lemma TagsAreLower()
    ensures Lower("DNS") == "dns" && Lower("IP") == "ip" && Lower("EMAIL") == "email"
    ensures ':' !in "DNS" && ':' !in "IP" && ':' !in "EMAIL"
  {
  }

  predicate AllMatch(ids: seq<Identifier>, sans: seq<string>) {
    forall k | 0 <= k < |sans| :: SanMatches(ids, sans[k])
  }

  lemma TaggedMatch(ids: seq<Identifier>, tag: string, kind: string, values: seq<string>)
    requires ':' !in tag && kind == Lower(tag) && kind != ""
    ensures AllMatch(ids, Tagged(tag, values)) <==> AllRead(ids, kind, values)
  {
    forall k | 0 <= k < |values|
      ensures SanMatches(ids, Tagged(tag, values)[k]) <==> ReadsLike(ids, (kind, Lower(values[k])))
    {
      SanOfType(ids, tag, kind, values[k], Rules(false, s => None));
    }
    if AllRead(ids, kind, values) {
      assert forall k | 0 <= k < |values| :: values[k] in values;
    }
  }

  lemma MatchAppend(ids: seq<Identifier>, xs: seq<string>, ys: seq<string>)
    ensures AllMatch(ids, xs + ys) <==> AllMatch(ids, xs) && AllMatch(ids, ys)
  {
    var all := xs + ys;
    assert forall k | 0 <= k < |xs| :: all[k] == xs[k];
    assert forall k | 0 <= k < |ys| :: all[|xs| + k] == ys[k];
    if AllMatch(ids, all) {
      forall k | 0 <= k < |ys| ensures SanMatches(ids, ys[k]) {
        assert SanMatches(ids, all[|xs| + k]);
      }
    }
  }

  lemma LegacyByType(ids: seq<Identifier>, csr: Csr)
    ensures Legacy(ids, csr) <==>
              && Sans(csr) != [] && AllRead(ids, "dns", csr.dns) && AllRead(ids, "ip", csr.ips)
              && AllRead(ids, "email", csr.emails)
  {
    TagsAreLower();
    TaggedMatch(ids, "DNS", "dns", csr.dns);
    TaggedMatch(ids, "IP", "ip", csr.ips);
    TaggedMatch(ids, "EMAIL", "email", csr.emails);
    MatchAppend(ids, Tagged("DNS", csr.dns), Tagged("IP", csr.ips));
    MatchAppend(ids, Tagged("DNS", csr.dns) + Tagged("IP", csr.ips), Tagged("EMAIL", csr.emails));
    assert Legacy(ids, csr) <==> Sans(csr) != [] && AllMatch(ids, Sans(csr));
  }

  /** Some value of one SAN type has this normalised name. */
  predicate Gives(tag: string, values: seq<string>, rules: Rules, n: BoundName) {
    exists i :: 0 <= i < |values| && Normalize(Identifier(tag, values[i]), rules) == Some(n)
  }

  lemma TaggedNames(tag: string, values: seq<string>, rules: Rules, n: BoundName)
    requires ':' !in tag && Lower(tag) != ""
    ensures n in SanNames(Tagged(tag, values), rules) <==> Gives(tag, values, rules, n)
  {
    var sans := Tagged(tag, values);
    forall k | 0 <= k < |values|
      ensures SanName(sans[k], rules) == Normalize(Identifier(tag, values[k]), rules)
    {
      SanOfType([], tag, Lower(tag), values[k], rules);
    }
    if i :| 0 <= i < |values| && Normalize(Identifier(tag, values[i]), rules) == Some(n) {
      assert SanName(sans[i], rules).value == n;
    }
  }

  lemma SanNamesAppend(xs: seq<string>, ys: seq<string>, rules: Rules)
    ensures SanNames(xs + ys, rules)
              == SanNames(xs, rules) + SanNames(ys, rules)
    decreases |ys|
  {
    if ys == [] {
      assert xs + ys == xs;
    } else {
      var init, last := ys[..|ys| - 1], ys[|ys| - 1];
      assert ys == init + [last] && xs + ys == (xs + init) + [last];
      SanNamesAppend(xs, init, rules);
      OneMoreSan(xs + init, last, rules);
      OneMoreSan(init, last, rules);
    }
  }

  lemma CsrNamesByType(csr: Csr, rules: Rules, n: BoundName)
    ensures n in CsrNames(csr, rules) <==>
              || Gives("DNS", csr.dns, rules, n) || Gives("IP", csr.ips, rules, n)
              || Gives("EMAIL", csr.emails, rules, n) || CnName(csr.cn, rules) == Some(n)
  {
    TagsAreLower();
    TaggedNames("DNS", csr.dns, rules, n);
    TaggedNames("IP", csr.ips, rules, n);
    TaggedNames("EMAIL", csr.emails, rules, n);
    SanNamesAppend(Tagged("DNS", csr.dns), Tagged("IP", csr.ips), rules);
    SanNamesAppend(Tagged("DNS", csr.dns) + Tagged("IP", csr.ips), Tagged("EMAIL", csr.emails), rules);
  }

  /** What a common name counts as: email with an `@`, an address where it reads like one, and
      otherwise a host. */
  lemma CommonNameIsTyped(cn: string, rules: Rules)
    ensures cn == "" ==> CnName(cn, rules) == None
    ensures '@' in cn ==> CnName(cn, rules) == Some(("email", Lower(cn)))
    ensures cn != "" && '@' !in cn && rules.canonIp(cn).None? ==> CnName(cn, rules) == Some(("dns", Lower(cn)))
    ensures cn != "" && '@' !in cn && rules.canonIp(cn).Some? ==>
              CnName(cn, rules)
                == Some(("ip", if rules.canonIp(Strip(cn)).Some? then rules.canonIp(Strip(cn)).value else Lower(cn)))
  {
    assert Lower("email") == "email" && Lower("dns") == "dns" && Lower("ip") == "ip";
    assert "email"[0] == 'e' && "ip"[0] == 'i' && "dns"[0] == 'd';
    AtStays(cn);
  }

  // ---------- what strict accepts and legacy does not ----------

  lemma LowerTwice(s: string)
    ensures Lower(Lower(s)) == Lower(s)
  {
  }

  lemma AtStays(s: string)
    ensures '@' in Lower(s) <==> '@' in s
  {
    if '@' in s {
      var i :| 0 <= i < |s| && s[i] == '@';
      assert Lower(s)[i] == '@';
    }
    if '@' in Lower(s) {
      var i :| 0 <= i < |s| && Lower(s)[i] == '@';
      assert s[i] == '@';
    }
  }

  /** A name of the order that is neither an address nor rewritten is the text of an identifier. */
  lemma PlainNameReadsLike(ids: seq<Identifier>, rules: Rules, n: BoundName)
    requires n in OrderNames(ids, rules)
    requires n.0 != "ip" && !(rules.emailRewrite && n.0 == "email" && '@' in n.1)
    ensures ReadsLike(ids, n)
  {
    OrderNameIsNamed(ids, rules, n);
    var i :| 0 <= i < |ids| && Normalize(LowerIdentifier(ids[i]), rules) == Some(n);
    LowerTwice(ids[i].kind);
    LowerTwice(ids[i].value);
  }

  /** A parsed CSR holds addresses by their canonical text. */
  predicate Parsed(csr: Csr, rules: Rules) {
    forall a | a in csr.ips :: IsAddressText(a, rules)
  }

  predicate IsAddressText(a: string, rules: Rules) {
    a != "" && rules.canonIp(Strip(a)) == Some(a) && Lower(a) == a && '@' !in a
  }

  /** The CSR has SANs, and none of them is empty. */
  predicate HasSans(csr: Csr) {
    Sans(csr) != [] && "" !in csr.dns && "" !in csr.emails
  }

  /** The rewritten values of one SAN type. */
  function Mails(values: seq<string>): (mails: seq<string>)
    ensures forall v :: v in mails <==> v in values && '@' in v
  {
    if values == [] then []
    else Mails(values[..|values| - 1]) + (if '@' in values[|values| - 1] then [values[|values| - 1]] else [])
  }

  lemma GivenIsAccepted(ids: seq<Identifier>, csr: Csr, tag: string, values: seq<string>, v: string, rules: Rules,
                        n: BoundName)
    requires Strict(ids, csr, rules) && v in values
    requires (tag, values) in {("DNS", csr.dns), ("IP", csr.ips), ("EMAIL", csr.emails)}
    requires Normalize(Identifier(tag, v), rules) == Some(n)
    ensures n in OrderNames(ids, rules)
  {
    var i :| 0 <= i < |values| && values[i] == v;
    assert Gives(tag, values, rules, n);
    CsrNamesByType(csr, rules, n);
  }

  /** A SAN that strict accepts and that is neither rewritten nor an address reads like an
      identifier. */
  lemma AcceptedReads(ids: seq<Identifier>, csr: Csr, tag: string, kind: string, values: seq<string>, v: string,
                      rules: Rules)
    requires Strict(ids, csr, rules) && v in values && v != "" && !(rules.emailRewrite && '@' in v)
    requires || (tag == "DNS" && kind == "dns" && values == csr.dns)
             || (tag == "EMAIL" && kind == "email" && values == csr.emails)
    ensures ReadsLike(ids, (kind, Lower(v)))
  {
    TagsAreLower();
    AtStays(v);
    assert "dns"[0] == 'd' && "email"[0] == 'e' && "ip"[0] == 'i';
    GivenIsAccepted(ids, csr, tag, values, v, rules, (kind, Lower(v)));
    PlainNameReadsLike(ids, rules, (kind, Lower(v)));
  }

  /** When strict acceptance implies legacy acceptance, for all orders, CSRs, rewrites and
      address formats: exactly when the CSR has SANs and none is empty, each of its addresses
      is the text of an address of the order, and, with the email rewrite, each of its SANs
      with an `@` is the text of an identifier of its own type. All other SANs are covered by
      strict acceptance itself. */
  lemma StrictImpliesLegacyExactly(ids: seq<Identifier>, csr: Csr, rules: Rules)
    requires Parsed(csr, rules) && Strict(ids, csr, rules)
    ensures Legacy(ids, csr) <==>
              && HasSans(csr) && AllRead(ids, "ip", csr.ips)
              && (rules.emailRewrite ==>
                    AllRead(ids, "dns", Mails(csr.dns)) && AllRead(ids, "email", Mails(csr.emails)))
  {
    LegacyByType(ids, csr);
    assert Lower("") == "";
    if HasSans(csr)
       && (rules.emailRewrite ==> AllRead(ids, "dns", Mails(csr.dns)) && AllRead(ids, "email", Mails(csr.emails))) {
      forall d | d in csr.dns ensures ReadsLike(ids, ("dns", Lower(d))) {
        if !(rules.emailRewrite && '@' in d) {
          AcceptedReads(ids, csr, "DNS", "dns", csr.dns, d, rules);
        }
      }
      forall m | m in csr.emails ensures ReadsLike(ids, ("email", Lower(m))) {
        if !(rules.emailRewrite && '@' in m) {
          AcceptedReads(ids, csr, "EMAIL", "email", csr.emails, m, rules);
        }
      }
    }
  }

  // ---------- the same, for the order alone ----------

  /** An address has no spaces around it, and reading its canonical text gives that text again. */
  ghost predicate AddressParser(rules: Rules) {
    forall s :: rules.canonIp(s).Some? ==> Strip(s) == s && IsAddressText(rules.canonIp(s).value, rules)
  }

  /** Each identifier is of a type that a CSR can name: dns, email, an address that can be
      read, or - with the rewrite - anything with an `@`. */
  predicate Supported(ids: seq<Identifier>, rules: Rules) {
    forall k | 0 <= k < |ids| && ids[k].kind != "" && ids[k].value != "" ::
      || Lower(ids[k].kind) in {"dns", "email"}
      || (rules.emailRewrite && '@' in ids[k].value)
      || (Lower(ids[k].kind) == "ip" && rules.canonIp(Strip(Lower(ids[k].value))).Some?)
  }

  /** Each address of the order is given by its canonical text, and with the rewrite each
      mail address both as a dns and as an email identifier. */
  predicate Canonical(ids: seq<Identifier>, rules: Rules) {
    forall n | n in OrderNames(ids, rules) ::
      && (n.0 == "ip" ==> ReadsLike(ids, n))
      && (rules.emailRewrite && n.0 == "email" && '@' in n.1 ==>
            ReadsLike(ids, ("email", n.1)) && ReadsLike(ids, ("dns", n.1)))
  }

  predicate SupportedName(n: BoundName, rules: Rules) {
    n.0 == "dns" || n.0 == "email" || (n.0 == "ip" && IsAddressText(n.1, rules))
  }

  lemma KindsDiffer()
    ensures "dns" != "email" && "dns" != "ip" && "email" != "ip"
  {
    assert "dns"[0] == 'd' && "email"[0] == 'e' && "ip"[0] == 'i';
  }

  lemma SupportedAt(id: Identifier, rules: Rules)
    requires AddressParser(rules) && id.kind != "" && id.value != ""
    ensures var n := Normalize(LowerIdentifier(id), rules);
            n.Some? && (SupportedName(n.value, rules) <==>
              || Lower(id.kind) in {"dns", "email"}
              || (rules.emailRewrite && '@' in id.value)
              || (Lower(id.kind) == "ip" && rules.canonIp(Strip(Lower(id.value))).Some?))
  {
    KindsDiffer();
    LowerTwice(id.kind);
    LowerTwice(id.value);
    AtStays(id.value);
  }

  /** An order is supported exactly when a CSR can hold each of its names. */
  lemma SupportedByName(ids: seq<Identifier>, rules: Rules)
    requires AddressParser(rules)
    ensures Supported(ids, rules) <==>
              forall n | n in OrderNames(ids, rules) :: SupportedName(n, rules)
  {
    forall k | 0 <= k < |ids| && ids[k].kind != "" && ids[k].value != ""
      ensures Normalize(LowerIdentifier(ids[k]), rules).Some?
      ensures SupportedName(Normalize(LowerIdentifier(ids[k]), rules).value, rules) <==>
                || Lower(ids[k].kind) in {"dns", "email"}
                || (rules.emailRewrite && '@' in ids[k].value)
                || (Lower(ids[k].kind) == "ip" && rules.canonIp(Strip(Lower(ids[k].value))).Some?)
    {
      SupportedAt(ids[k], rules);
    }
    forall k | 0 <= k < |ids| ensures
        Normalize(LowerIdentifier(ids[k]), rules).Some? <==> ids[k].kind != "" && ids[k].value != "" {
      LoweredName(ids[k], rules);
    }
  }

  lemma CsrNameIsSupported(csr: Csr, rules: Rules, n: BoundName)
    requires AddressParser(rules) && Parsed(csr, rules) && n in CsrNames(csr, rules)
    ensures SupportedName(n, rules)
  {
    TagsAreLower();
    KindsDiffer();
    CsrNamesByType(csr, rules, n);
    if Gives("IP", csr.ips, rules, n) {
      var i :| 0 <= i < |csr.ips| && Normalize(Identifier("IP", csr.ips[i]), rules) == Some(n);
      assert csr.ips[i] in csr.ips;
      AtStays(csr.ips[i]);
    }
    if CnName(csr.cn, rules) == Some(n) {
      CnNameIsSupported(csr.cn, rules);
    }
  }

  lemma CnNameIsSupported(cn: string, rules: Rules)
    requires AddressParser(rules) && cn != ""
    ensures CnName(cn, rules).Some? && SupportedName(CnName(cn, rules).value, rules)
  {
    KindsDiffer();
    LowerIsSame("dns");
    LowerIsSame("ip");
    LowerIsSame("email");
    AtStays(cn);
  }

  // ---------- a CSR for every order that is supported ----------

  /** The names of one type among the first k identifiers, in their order. */
  function ValuesUpTo(kind: string, ids: seq<Identifier>, k: nat, rules: Rules): (values: seq<string>)
    requires k <= |ids|
    ensures forall v :: v in values <==> NamedUpTo(ids, k, rules, (kind, v))
  {
    if k == 0 then []
    else
      var n, before := Normalize(LowerIdentifier(ids[k - 1]), rules), ValuesUpTo(kind, ids, k - 1, rules);
      if n.Some? && n.value.0 == kind then before + [n.value.1] else before
  }

  function ValuesOf(kind: string, ids: seq<Identifier>, rules: Rules): (values: seq<string>)
    ensures forall v :: v in values <==> NamedUpTo(ids, |ids|, rules, (kind, v))
  {
    ValuesUpTo(kind, ids, |ids|, rules)
  }

  /** A CSR with a SAN for each name of the order. */
  function CsrFor(ids: seq<Identifier>, rules: Rules): Csr {
    Csr(ValuesOf("dns", ids, rules), ValuesOf("ip", ids, rules),
        ValuesOf("email", ids, rules), "")
  }

  /** A name of an order, written as a SAN, is that name again. */
  lemma NameGivesItself(ids: seq<Identifier>, rules: Rules, n: BoundName)
    requires n in OrderNames(ids, rules) && SupportedName(n, rules)
    ensures n.1 != ""
    ensures n.0 == "dns" ==> Normalize(Identifier("DNS", n.1), rules) == Some(n)
    ensures n.0 == "ip" ==> Normalize(Identifier("IP", n.1), rules) == Some(n)
    ensures n.0 == "email" ==> Normalize(Identifier("EMAIL", n.1), rules) == Some(n)
    ensures n.0 == "email" && rules.emailRewrite && '@' in n.1 ==>
              Normalize(Identifier("DNS", n.1), rules) == Some(n)
  {
    TagsAreLower();
    KindsDiffer();
    OrderNameIsNamed(ids, rules, n);
    var i :| 0 <= i < |ids| && Normalize(LowerIdentifier(ids[i]), rules) == Some(n);
    LowerTwice(ids[i].kind);
    LowerTwice(ids[i].value);
    LowerTwice(Lower(ids[i].value));
    AtStays(n.1);
  }

  /** One more SAN for a name of the order changes no name. */
  predicate Fits(values: seq<string>, tag: string, ids: seq<Identifier>, rules: Rules) {
    forall v | v in values ::
      var n := Normalize(Identifier(tag, v), rules);
      n.Some? && n.value in OrderNames(ids, rules)
  }

  lemma ValuesFit(ids: seq<Identifier>, kind: string, tag: string, rules: Rules)
    requires AddressParser(rules) && Supported(ids, rules)
    requires (kind, tag) in {("dns", "DNS"), ("ip", "IP"), ("email", "EMAIL")}
    ensures Fits(ValuesOf(kind, ids, rules), tag, ids, rules)
    ensures "" !in ValuesOf(kind, ids, rules)
    ensures forall v | (kind, v) in OrderNames(ids, rules) ::
              Gives(tag, ValuesOf(kind, ids, rules), rules, (kind, v))
    ensures kind == "ip" ==> forall v | v in ValuesOf(kind, ids, rules) :: IsAddressText(v, rules)
  {
    var values := ValuesOf(kind, ids, rules);
    KindsDiffer();
    SupportedByName(ids, rules);
    forall v ensures v in values <==> (kind, v) in OrderNames(ids, rules) {
      OrderNameIsNamed(ids, rules, (kind, v));
    }
    forall v | v in values ensures v != "" && Normalize(Identifier(tag, v), rules) == Some((kind, v)) {
      NameGivesItself(ids, rules, (kind, v));
    }
  }

  lemma FittingCsr(ids: seq<Identifier>, csr: Csr, rules: Rules)
    requires Fits(csr.dns, "DNS", ids, rules) && Fits(csr.ips, "IP", ids, rules)
    requires Fits(csr.emails, "EMAIL", ids, rules) && csr.cn == ""
    requires forall n | n in OrderNames(ids, rules) ::
               || Gives("DNS", csr.dns, rules, n) || Gives("IP", csr.ips, rules, n)
               || Gives("EMAIL", csr.emails, rules, n)
    ensures CsrNames(csr, rules) == OrderNames(ids, rules)
  {
    forall n ensures n in CsrNames(csr, rules) <==> n in OrderNames(ids, rules) {
      CsrNamesByType(csr, rules, n);
      GivenFits("DNS", csr.dns, ids, rules, n);
      GivenFits("IP", csr.ips, ids, rules, n);
      GivenFits("EMAIL", csr.emails, ids, rules, n);
    }
  }

  lemma GivenFits(tag: string, values: seq<string>, ids: seq<Identifier>, rules: Rules, n: BoundName)
    requires Fits(values, tag, ids, rules)
    ensures Gives(tag, values, rules, n) ==> n in OrderNames(ids, rules)
  {
    if i :| 0 <= i < |values| && Normalize(Identifier(tag, values[i]), rules) == Some(n) {
      assert values[i] in values;
    }
  }

  lemma GivesMore(tag: string, values: seq<string>, extra: seq<string>, rules: Rules, n: BoundName)
    requires Gives(tag, values, rules, n)
    ensures Gives(tag, values + extra, rules, n)
  {
    var i :| 0 <= i < |values| && Normalize(Identifier(tag, values[i]), rules) == Some(n);
    assert (values + extra)[i] == values[i];
  }

  /** Every name of the order is in the CSR made for it. */
  lemma CsrForHolds(ids: seq<Identifier>, rules: Rules, n: BoundName)
    requires AddressParser(rules) && Supported(ids, rules)
    requires n in OrderNames(ids, rules)
    ensures var csr := CsrFor(ids, rules);
            || Gives("DNS", csr.dns, rules, n) || Gives("IP", csr.ips, rules, n)
            || Gives("EMAIL", csr.emails, rules, n)
  {
    SupportedByName(ids, rules);
    assert SupportedName(n, rules) && n == (n.0, n.1);
    if n.0 == "dns" {
      ValuesFit(ids, "dns", "DNS", rules);
    } else if n.0 == "ip" {
      ValuesFit(ids, "ip", "IP", rules);
    } else {
      ValuesFit(ids, "email", "EMAIL", rules);
    }
  }

  /** With further DNS SANs that stand for names of the order. */
  lemma CsrForFits(ids: seq<Identifier>, extra: seq<string>, rules: Rules)
    requires AddressParser(rules) && Supported(ids, rules)
    requires Fits(extra, "DNS", ids, rules) && "" !in extra
    ensures var csr := CsrFor(ids, rules);
            var more := csr.(dns := csr.dns + extra);
            && Parsed(more, rules) && "" !in more.dns && "" !in more.emails
            && CsrNames(more, rules) == OrderNames(ids, rules)
  {
    var csr := CsrFor(ids, rules);
    var more := csr.(dns := csr.dns + extra);
    ValuesFit(ids, "dns", "DNS", rules);
    ValuesFit(ids, "ip", "IP", rules);
    ValuesFit(ids, "email", "EMAIL", rules);
    forall n | n in OrderNames(ids, rules)
      ensures Gives("DNS", more.dns, rules, n) || Gives("IP", more.ips, rules, n)
              || Gives("EMAIL", more.emails, rules, n)
    {
      CsrForHolds(ids, rules, n);
      if Gives("DNS", csr.dns, rules, n) {
        GivesMore("DNS", csr.dns, extra, rules, n);
      }
    }
    FittingCsr(ids, more, rules);
  }

  /** Which orders can be finalized under strict binding at all: exactly those that have a
      name and hold only identifiers that a CSR can name. */
  lemma StrictIsMetExactly(ids: seq<Identifier>, rules: Rules)
    requires AddressParser(rules)
    ensures (exists csr :: Parsed(csr, rules) && Strict(ids, csr, rules)) <==>
              OrderNames(ids, rules) != {} && Supported(ids, rules)
  {
    if csr :| Parsed(csr, rules) && Strict(ids, csr, rules) {
      forall n | n in OrderNames(ids, rules) ensures SupportedName(n, rules) {
        CsrNameIsSupported(csr, rules, n);
      }
      SupportedByName(ids, rules);
    }
    if OrderNames(ids, rules) != {} && Supported(ids, rules) {
      CsrForFits(ids, [], rules);
      var csr := CsrFor(ids, rules);
      assert csr.(dns := csr.dns + []) == csr;
      assert Parsed(csr, rules) && Strict(ids, csr, rules);
    }
  }

  ghost predicate AlwaysLegacy(ids: seq<Identifier>, rules: Rules) {
    forall csr | Parsed(csr, rules) && HasSans(csr) && Strict(ids, csr, rules) :: Legacy(ids, csr)
  }

  /** For which orders strict is at least as tight as legacy, for every CSR that has SANs:
      exactly for those that no CSR can meet anyhow, and those that give each address by its
      canonical text and - with the rewrite - each mail address as dns and as email. */
  lemma StrictIsTighterExactly(ids: seq<Identifier>, rules: Rules)
    requires AddressParser(rules)
    ensures AlwaysLegacy(ids, rules) <==>
              (Supported(ids, rules) ==> Canonical(ids, rules))
  {
    if Canonical(ids, rules) {
      forall csr | Parsed(csr, rules) && HasSans(csr) && Strict(ids, csr, rules)
        ensures Legacy(ids, csr)
      {
        CanonicalIsLegacy(ids, csr, rules);
      }
    }
    if AlwaysLegacy(ids, rules) && Supported(ids, rules) {
      forall n | n in OrderNames(ids, rules)
        ensures n.0 == "ip" ==> ReadsLike(ids, n)
        ensures rules.emailRewrite && n.0 == "email" && '@' in n.1 ==>
                  ReadsLike(ids, ("email", n.1)) && ReadsLike(ids, ("dns", n.1))
      {
        AlwaysLegacyReads(ids, rules, n);
      }
    }
    if !Supported(ids, rules) {
      StrictIsMetExactly(ids, rules);
    }
  }

  lemma CanonicalIsLegacy(ids: seq<Identifier>, csr: Csr, rules: Rules)
    requires Canonical(ids, rules)
    requires Parsed(csr, rules) && HasSans(csr) && Strict(ids, csr, rules)
    ensures Legacy(ids, csr)
  {
    TagsAreLower();
    forall a | a in csr.ips ensures ReadsLike(ids, ("ip", Lower(a))) {
      GivenIsAccepted(ids, csr, "IP", csr.ips, a, rules, ("ip", a));
    }
    if rules.emailRewrite {
      forall d | d in Mails(csr.dns) ensures ReadsLike(ids, ("dns", Lower(d))) {
        AtStays(d);
        GivenIsAccepted(ids, csr, "DNS", csr.dns, d, rules, ("email", Lower(d)));
        assert ReadsLike(ids, ("dns", ("email", Lower(d)).1));
      }
      forall m | m in Mails(csr.emails) ensures ReadsLike(ids, ("email", Lower(m))) {
        AtStays(m);
        GivenIsAccepted(ids, csr, "EMAIL", csr.emails, m, rules, ("email", Lower(m)));
      }
    }
    StrictImpliesLegacyExactly(ids, csr, rules);
  }

  lemma AlwaysLegacyReads(ids: seq<Identifier>, rules: Rules, n: BoundName)
    requires AddressParser(rules) && AlwaysLegacy(ids, rules) && Supported(ids, rules)
    requires n in OrderNames(ids, rules)
    ensures n.0 == "ip" ==> ReadsLike(ids, n)
    ensures rules.emailRewrite && n.0 == "email" && '@' in n.1 ==>
              ReadsLike(ids, ("email", n.1)) && ReadsLike(ids, ("dns", n.1))
  {
    var csr := CsrFor(ids, rules);
    var extra := if rules.emailRewrite && n.0 == "email" && '@' in n.1 then [n.1] else [];
    var more := csr.(dns := csr.dns + extra);
    SupportedByName(ids, rules);
    NameGivesItself(ids, rules, n);
    CsrForFits(ids, extra, rules);
    OrderNameIsNamed(ids, rules, n);
    assert n == (n.0, n.1);
    if n.0 == "ip" {
      assert n.1 in more.ips;
      HasOneSan(more, n.1);
      assert Legacy(ids, more);
      LegacyByType(ids, more);
    } else if extra != [] {
      assert n.1 in more.emails && n.1 in more.dns;
      HasOneSan(more, n.1);
      assert Legacy(ids, more);
      LegacyByType(ids, more);
      NameIsLower(ids, rules, n);
    }
  }

  lemma HasOneSan(csr: Csr, v: string)
    requires v in csr.dns || v in csr.ips || v in csr.emails
    ensures Sans(csr) != []
  {
  }

  lemma NameIsLower(ids: seq<Identifier>, rules: Rules, n: BoundName)
    requires n in OrderNames(ids, rules) && n.0 == "email"
    ensures Lower(n.1) == n.1
  {
    KindsDiffer();
    OrderNameIsNamed(ids, rules, n);
    var i :| 0 <= i < |ids| && Normalize(LowerIdentifier(ids[i]), rules) == Some(n);
    LowerTwice(ids[i].value);
    LowerTwice(ids[i].kind);
  }

  // ---------- strict as legacy plus coverage ----------

  /** Normalisation of these identifiers is lower-casing: no address has a canonical text
      of its own, and none is turned into an email name. */
  predicate PlainNames(ids: seq<Identifier>, rules: Rules) {
    forall k | 0 <= k < |ids| && ids[k].kind != "" && ids[k].value != "" ::
      Normalize(LowerIdentifier(ids[k]), rules) == Some((Lower(ids[k].kind), Lower(ids[k].value)))
  }

  /** None of the SANs is rewritten. */
  predicate PlainSans(csr: Csr, rules: Rules) {
    rules.emailRewrite ==> Mails(csr.dns) == []
  }

  /** Every name of the order is in the CSR. */
  predicate Covered(ids: seq<Identifier>, csr: Csr, rules: Rules) {
    forall k | 0 <= k < |ids| && ids[k].kind != "" && ids[k].value != "" ::
      (Lower(ids[k].kind), Lower(ids[k].value)) in CsrNames(csr, rules)
  }

  /** The common name, if there is one, is the text of an identifier. */
  predicate CnReads(ids: seq<Identifier>, csr: Csr, rules: Rules) {
    var cn := CnName(csr.cn, rules);
    cn.Some? ==> ReadsLike(ids, cn.value)
  }

  lemma LoweredName(id: Identifier, rules: Rules)
    ensures Normalize(LowerIdentifier(id), rules).Some? <==> id.kind != "" && id.value != ""
  {
  }

  lemma OrderNameIn(ids: seq<Identifier>, rules: Rules, n: BoundName)
    requires PlainNames(ids, rules)
    ensures n in OrderNames(ids, rules) <==> ReadsLike(ids, n)
  {
    OrderNameIsNamed(ids, rules, n);
    forall k | 0 <= k < |ids| ensures
        Normalize(LowerIdentifier(ids[k]), rules).Some? <==> ids[k].kind != "" && ids[k].value != "" {
      LoweredName(ids[k], rules);
    }
  }

  lemma PlainValueReads(ids: seq<Identifier>, tag: string, kind: string, v: string, rules: Rules, n: BoundName)
    requires (tag, kind) in {("DNS", "dns"), ("IP", "ip"), ("EMAIL", "email")}
    requires tag == "DNS" && rules.emailRewrite ==> '@' !in v
    requires tag == "IP" ==> IsAddressText(v, rules)
    requires ReadsLike(ids, (kind, Lower(v))) && Normalize(Identifier(tag, v), rules) == Some(n)
    ensures ReadsLike(ids, n)
  {
    TagsAreLower();
    KindsDiffer();
    AtStays(v);
    assert n == (kind, Lower(v));
  }

  lemma PlainSanReads(ids: seq<Identifier>, csr: Csr, rules: Rules, n: BoundName)
    requires Parsed(csr, rules) && PlainSans(csr, rules) && Legacy(ids, csr)
    requires n in CsrNames(csr, rules) && CnName(csr.cn, rules) != Some(n)
    ensures ReadsLike(ids, n)
  {
    LegacyByType(ids, csr);
    CsrNamesByType(csr, rules, n);
    if Gives("DNS", csr.dns, rules, n) {
      var i :| 0 <= i < |csr.dns| && Normalize(Identifier("DNS", csr.dns[i]), rules) == Some(n);
      assert csr.dns[i] in csr.dns && !(rules.emailRewrite && csr.dns[i] in Mails(csr.dns));
      PlainValueReads(ids, "DNS", "dns", csr.dns[i], rules, n);
    } else if Gives("IP", csr.ips, rules, n) {
      var i :| 0 <= i < |csr.ips| && Normalize(Identifier("IP", csr.ips[i]), rules) == Some(n);
      assert csr.ips[i] in csr.ips;
      PlainValueReads(ids, "IP", "ip", csr.ips[i], rules, n);
    } else {
      var i :| 0 <= i < |csr.emails| && Normalize(Identifier("EMAIL", csr.emails[i]), rules) == Some(n);
      assert csr.emails[i] in csr.emails;
      PlainValueReads(ids, "EMAIL", "email", csr.emails[i], rules, n);
    }
  }

  /** Strict binding is legacy binding plus coverage: for CSRs that have SANs, and where
      normalisation is lower-casing on both sides, the strict comparison accepts exactly when
      the legacy one accepts, every identifier of the order is named in the CSR, and so is
      the common name in the order. */
  lemma StrictIsLegacyAndCovered(ids: seq<Identifier>, csr: Csr, rules: Rules)
    requires Parsed(csr, rules) && PlainNames(ids, rules) && PlainSans(csr, rules)
    ensures HasSans(csr) && Strict(ids, csr, rules) <==>
              && Legacy(ids, csr) && Covered(ids, csr, rules) && CnReads(ids, csr, rules)
  {
    forall n ensures n in OrderNames(ids, rules) <==> ReadsLike(ids, n) {
      OrderNameIn(ids, rules, n);
    }
    LegacyByType(ids, csr);
    assert Lower("") == "";
    if Legacy(ids, csr) && Covered(ids, csr, rules) && CnReads(ids, csr, rules) {
      CoveredIsStrict(ids, csr, rules);
    }
    if HasSans(csr) && Strict(ids, csr, rules) {
      StrictIsCovered(ids, csr, rules);
    }
  }

  lemma CoveredIsStrict(ids: seq<Identifier>, csr: Csr, rules: Rules)
    requires Parsed(csr, rules) && PlainNames(ids, rules) && PlainSans(csr, rules)
    requires Legacy(ids, csr) && Covered(ids, csr, rules) && CnReads(ids, csr, rules)
    ensures Strict(ids, csr, rules)
  {
    forall n ensures n in OrderNames(ids, rules) <==> n in CsrNames(csr, rules) {
      OrderNameIn(ids, rules, n);
      if n in CsrNames(csr, rules) && CnName(csr.cn, rules) != Some(n) {
        PlainSanReads(ids, csr, rules, n);
      }
    }
    AcceptedOrderIsNamed(ids, csr, rules);
  }

  lemma AcceptedOrderIsNamed(ids: seq<Identifier>, csr: Csr, rules: Rules)
    requires PlainNames(ids, rules) && Legacy(ids, csr)
    ensures OrderNames(ids, rules) != {}
  {
    assert SanMatches(ids, Sans(csr)[0]);
    var n := SplitSan(Lower(Sans(csr)[0])).value;
    assert ReadsLike(ids, n);
    OrderNameIn(ids, rules, n);
  }

  lemma StrictIsCovered(ids: seq<Identifier>, csr: Csr, rules: Rules)
    requires Parsed(csr, rules) && PlainNames(ids, rules) && PlainSans(csr, rules)
    requires HasSans(csr) && Strict(ids, csr, rules)
    ensures Legacy(ids, csr) && Covered(ids, csr, rules) && CnReads(ids, csr, rules)
  {
    TagsAreLower();
    forall n ensures n in OrderNames(ids, rules) <==> ReadsLike(ids, n) {
      OrderNameIn(ids, rules, n);
    }
    forall a | a in csr.ips ensures ReadsLike(ids, ("ip", Lower(a))) {
      AtStays(a);
      GivenIsAccepted(ids, csr, "IP", csr.ips, a, rules, ("ip", a));
    }
    forall m | m in csr.emails ensures ReadsLike(ids, ("email", Lower(m))) {
      KindsDiffer();
      GivenIsAccepted(ids, csr, "EMAIL", csr.emails, m, rules, ("email", Lower(m)));
    }
    StrictImpliesLegacyExactly(ids, csr, rules);
    forall k | 0 <= k < |ids| && ids[k].kind != "" && ids[k].value != ""
      ensures (Lower(ids[k].kind), Lower(ids[k].value)) in CsrNames(csr, rules)
    {
      assert ReadsLike(ids, (Lower(ids[k].kind), Lower(ids[k].value)));
    }
  }

  // ---------- the inputs on which they part ----------

  lemma OneName(id: Identifier, rules: Rules, n: BoundName)
    requires Normalize(LowerIdentifier(id), rules) == Some(n)
    ensures OrderNames([id], rules) == {n}
  {
    assert Normalize(LowerIdentifier([id][0]), rules).value == n;
    assert n in OrderNames([id], rules);
  }

  /** A CSR without SANs: legacy never accepts it, and strict does exactly when its common
      name is all the order asks for. */
  lemma CnAloneParts(ids: seq<Identifier>, cn: string, rules: Rules)
    ensures !Legacy(ids, Csr([], [], [], cn))
    ensures Strict(ids, Csr([], [], [], cn), rules) <==>
              && CnName(cn, rules).Some?
              && OrderNames(ids, rules) == {CnName(cn, rules).value}
  {
    var csr := Csr([], [], [], cn);
    assert Sans(csr) == [] && SanNames([], rules) == {};
  }

  const HOST := "example.com"

  lemma CnAloneExample(rules: Rules)
    requires !rules.emailRewrite && rules.canonIp(HOST).None?
    ensures var ids, csr := [Identifier("dns", HOST)], Csr([], [], [], HOST);
            Strict(ids, csr, rules) && !Legacy(ids, csr)
  {
    LowerIsSame("dns");
    LowerIsSame(HOST);
    KindsDiffer();
    assert forall i | 0 <= i < |HOST| :: HOST[i] != '@';
    OneName(Identifier("dns", HOST), rules, ("dns", HOST));
    CnAloneParts([Identifier("dns", HOST)], HOST, rules);
  }

  const LONG_ADDRESS := "0:0:0:0:0:0:0:1"

  /** An order for an address in long form, and a CSR for that address: the SAN holds its
      short form. */
  lemma CanonicalAddressParts(rules: Rules)
    requires !rules.emailRewrite && rules.canonIp(LONG_ADDRESS) == Some("::1") && rules.canonIp("::1") == Some("::1")
    ensures var ids, csr := [Identifier("ip", LONG_ADDRESS)], Csr([], ["::1"], [], "");
            Parsed(csr, rules) && Strict(ids, csr, rules) && !Legacy(ids, csr)
  {
    var ids, csr := [Identifier("ip", LONG_ADDRESS)], Csr([], ["::1"], [], "");
    LowerIsSame("ip");
    LowerIsSame(LONG_ADDRESS);
    LowerIsSame("::1");
    assert Strip(LONG_ADDRESS) == LONG_ADDRESS && Strip("::1") == "::1";
    assert LONG_ADDRESS[0] != "::1"[0];
    OneName(ids[0], rules, ("ip", "::1"));
    OneSanNames(csr, "IP", "::1", rules, ("ip", "::1"));
    assert "::1" in csr.ips;
    LegacyByType(ids, csr);
    assert !ReadsLike(ids, ("ip", "::1"));
  }

  /** With the email rewrite, an order for a dns name that is a mail address, and a CSR for
      that mail address. */
  lemma RewriteParts(rules: Rules)
    requires rules.emailRewrite
    ensures var ids, csr := [Identifier("dns", "a@b")], Csr([], [], ["a@b"], "");
            Parsed(csr, rules) && Strict(ids, csr, rules) && !Legacy(ids, csr)
  {
    var ids, csr := [Identifier("dns", "a@b")], Csr([], [], ["a@b"], "");
    LowerIsSame("dns");
    LowerIsSame("a@b");
    KindsDiffer();
    assert "a@b"[1] == '@';
    OneName(ids[0], rules, ("email", "a@b"));
    OneSanNames(csr, "EMAIL", "a@b", rules, ("email", "a@b"));
    assert "a@b" in csr.emails;
    LegacyByType(ids, csr);
    assert !ReadsLike(ids, ("email", "a@b"));
  }

  lemma OneSanNames(csr: Csr, tag: string, v: string, rules: Rules, n: BoundName)
    requires csr.cn == ""
    requires (tag == "IP" && csr == Csr([], [v], [], "")) || (tag == "EMAIL" && csr == Csr([], [], [v], ""))
    requires Normalize(Identifier(tag, v), rules) == Some(n)
    ensures CsrNames(csr, rules) == {n}
  {
    TagsAreLower();
    forall m ensures m in CsrNames(csr, rules) <==> m == n {
      CsrNamesByType(csr, rules, m);
      assert [v][0] == v;
      assert Gives(tag, [v], rules, m) <==> m == n;
    }
  }

  lemma LowerIsSame(s: string)
    requires forall i | 0 <= i < |s| :: !('A' <= s[i] <= 'Z')
    ensures Lower(s) == s
  {
  }

  lemma {:induction false} ColonIsFirst(s: string, k: nat)
    requires k < |s| && s[k] == ':' && ':' !in s[..k]
    ensures ColonAt(s) == k
  {
    if k > 0 {
      assert s[..k] == [s[0]] + s[1..][..k - 1];
      ColonIsFirst(s[1..], k - 1);
    }
  }

  lemma SplitAt(kind: string, value: string)
    requires ':' !in kind
    ensures SplitSan(kind + ":" + value) == Some((kind, value))
  {
    var san := kind + ":" + value;
    assert san[|kind|] == ':' && san[..|kind|] == kind && san[|kind| + 1..] == value;
    ColonIsFirst(san, |kind|);
  }
}
