/**
 Routing rules by host name: `HostPattern` and `RoutingConfig` (client/src/lib.rs:60-160)
 and `GeoSiteMatcher` (client/src/geosite.rs:34-80). The code compares strings; here
 their meaning is given on the names' label lists. Names and rules are lower case already.
 */
module HostMatch {
  import opened Basics
  import opened Numbers
  import opened HostNames

  // ── HostPattern ─────────────────────────────────────────────────────────────

  datatype HostPattern = HostPattern(host: string, port: Option<nat>)

  /** `HostPattern::parse`, on lower-case text. */
  function ParsePattern(s: string): HostPattern {
    match RSplit(s)
    case None => HostPattern(s, None)
    case Some((h, p)) =>
      match ParseUnsigned(p, 65535)
      case None => HostPattern(s, None)
      case Some(port) => HostPattern(h, Some(port))
  }

  /** `HostPattern::matches`. */
  predicate Matches(rule: HostPattern, host: string, port: nat) {
    if rule.port.Some? && rule.port.value != port then false
    else if "*." <= rule.host then
      var suffix := rule.host[2..];
      EndsWith(host, suffix) && |host| > |suffix| && EndsWith(host[..|host| - |suffix|], ".")
    else rule.host == host
  }

  lemma DecimalNoColon(n: nat)
    ensures ':' !in Decimal(n)
  {
    assert forall i :: 0 <= i < |Decimal(n)| ==> IsDigit(Decimal(n)[i]);
  }

  /** A rule with a port at its end is read as that, up to 65535; beyond, the digits belong to the host. */
  lemma PatternWithPort(host: string, port: nat)
    ensures var s := host + [':'] + Decimal(port);
            ParsePattern(s) == if port < 0x1_0000 then HostPattern(host, Some(port)) else HostPattern(s, None)
  {
    DecimalNoColon(port);
    RSplitAt(host, Decimal(port));
    ParseDecimal(port, 65535);
  }

  /** Without a colon there is no port. */
  lemma PatternWithoutPort(host: string)
    requires ':' !in host
    ensures ParsePattern(host) == HostPattern(host, None)
  {
    NoColon(host);
  }

  lemma WildTest(host: string, suffix: string)
    ensures EndsWith(host, suffix) && |host| > |suffix| && EndsWith(host[..|host| - |suffix|], ".")
            <==> EndsWith(host, "." + suffix)
  {
    if |host| > |suffix| {
      var k := |host| - |suffix|;
      assert host[k - 1..] == [host[k - 1]] + host[k..];
      assert host[..k][k - 1..] == [host[k - 1]];
      if EndsWith(host, "." + suffix) {
        assert host[k..] == host[k - 1..][1..] == ("." + suffix)[1..] == suffix;
        assert host[k - 1] == host[k - 1..][0] == '.';
      }
    }
  }

  /** What a rule means: `*.s` the names properly below s, a plain rule the one name; with a port, only that port. */
  predicate MeantBy(rule: HostPattern, host: string, port: nat) {
    && (rule.port.Some? ==> rule.port.value == port)
    && (if "*." <= rule.host then Below(host, rule.host[2..]) else Labels(host) == Labels(rule.host))
  }

  lemma MatchesByLabels(rule: HostPattern, host: string, port: nat)
    ensures Matches(rule, host, port) <==> MeantBy(rule, host, port)
  {
    if "*." <= rule.host {
      WildTest(host, rule.host[2..]);
      BelowMeans(host, rule.host[2..]);
    } else {
      SameLabels(host, rule.host);
    }
  }

  // ── GeoSite ─────────────────────────────────────────────────────────────────

  /** Domain rules are stored with a dot in front. */
  function Stored(value: string): string {
    "." + value
  }

  /** The suffix test of `GeoSiteMatcher::matches` on one stored rule. */
  predicate DomainRule(stored: string, host: string)
    requires stored != []
  {
    host == stored[1..] || EndsWith(host, stored)
  }

  /** A domain rule matches its own name and every name below it, and no other. */
  lemma DomainRuleByLabels(value: string, host: string)
    ensures DomainRule(Stored(value), host) <==> EndsWith(Labels(host), Labels(value))
  {
    assert Stored(value)[1..] == value;
    BelowMeans(host, value);
    SameLabels(host, value);
    var all, tail := Labels(host), Labels(value);
    if |all| == |tail| { assert all[0..] == all; }
  }

  // ── Routing ─────────────────────────────────────────────────────────────────

  predicate Contains(s: string, word: string) {
    exists i :: 0 <= i <= |s| && word <= s[i..]
  }

  /** A keyword is found wherever it stands. */
  lemma ContainsMeans(s: string, word: string)
    ensures Contains(s, word) <==> exists a: string, b: string :: s == a + word + b
  {
    if Contains(s, word) {
      var i :| 0 <= i <= |s| && word <= s[i..];
      assert s == s[..i] + word + s[i + |word|..];
    }
    if a: string, b: string :| s == a + word + b {
      assert s[|a|..] == word + b;
    }
  }

  /** `domains` holds the values of the domain rules; regular expressions are an opaque predicate. */
  datatype GeoSite = GeoSite(domains: seq<string>, fulls: seq<string>, keywords: seq<string>, regex: string -> bool)

  /** The rules that are not about labels. */
  predicate OtherRule(g: GeoSite, host: string) {
    || host in g.fulls
    || (exists k :: 0 <= k < |g.keywords| && Contains(host, g.keywords[k]))
    || g.regex(host)
  }

  /** `GeoSiteMatcher::matches`. */
  predicate GeoMatches(g: GeoSite, host: string) {
    OtherRule(g, host) || exists k :: 0 <= k < |g.domains| && DomainRule(Stored(g.domains[k]), host)
  }

  /** `inCidrs` says that the host is an address in one of the bypass ranges. */
  datatype Routing = Routing(proxy: seq<HostPattern>, bypass: seq<HostPattern>, geosite: Option<GeoSite>,
                             inCidrs: string -> bool)

  predicate AnyMatches(rules: seq<HostPattern>, host: string, port: nat) {
    exists k :: 0 <= k < |rules| && Matches(rules[k], host, port)
  }

  /** `RoutingConfig::should_bypass`, on a lower-case host. */
  predicate ShouldBypass(r: Routing, host: string, port: nat) {
    if AnyMatches(r.proxy, host, port) then false
    else if AnyMatches(r.bypass, host, port) then true
    else if r.geosite.Some? && GeoMatches(r.geosite.value, host) then true
    else r.inCidrs(host)
  }

  predicate Meant(rules: seq<HostPattern>, host: string, port: nat) {
    exists k :: 0 <= k < |rules| && MeantBy(rules[k], host, port)
  }

  predicate GeoMeant(g: GeoSite, host: string) {
    exists k :: 0 <= k < |g.domains| && EndsWith(Labels(host), Labels(g.domains[k]))
  }

  lemma AnyByLabels(rules: seq<HostPattern>, host: string, port: nat)
    ensures AnyMatches(rules, host, port) <==> Meant(rules, host, port)
  {
    forall k | 0 <= k < |rules|
      ensures Matches(rules[k], host, port) <==> MeantBy(rules[k], host, port)
    {
      MatchesByLabels(rules[k], host, port);
    }
  }

  lemma KeywordByText(g: GeoSite, host: string)
    ensures (exists k :: 0 <= k < |g.keywords| && Contains(host, g.keywords[k]))
            <==> exists word, a: string, b: string :: word in g.keywords && host == a + word + b
  {
    if k :| 0 <= k < |g.keywords| && Contains(host, g.keywords[k]) {
      ContainsMeans(host, g.keywords[k]);
      var a: string, b: string :| host == a + g.keywords[k] + b;
      assert g.keywords[k] in g.keywords;
    }
    if word, a: string, b: string :| word in g.keywords && host == a + word + b {
      ContainsMeans(host, word);
      var k :| 0 <= k < |g.keywords| && g.keywords[k] == word;
      assert Contains(host, g.keywords[k]);
    }
  }

  /**
   The whole decision by labels: a host that any proxy rule means is tunnelled; any other
   is reached directly exactly when some bypass rule, GeoSite rule or range means it.
   */
  lemma RoutesByLabels(r: Routing, host: string, port: nat)
    ensures ShouldBypass(r, host, port) <==>
            && !Meant(r.proxy, host, port)
            && (|| Meant(r.bypass, host, port)
                || (r.geosite.Some?
                    && (|| GeoMeant(r.geosite.value, host)
                        || host in r.geosite.value.fulls
                        || (exists word, a: string, b: string ::
                              word in r.geosite.value.keywords && host == a + word + b)
                        || r.geosite.value.regex(host)))
                || r.inCidrs(host))
  {
    AnyByLabels(r.proxy, host, port);
    AnyByLabels(r.bypass, host, port);
    if r.geosite.Some? {
      var g := r.geosite.value;
      KeywordByText(g, host);
      forall k | 0 <= k < |g.domains|
        ensures DomainRule(Stored(g.domains[k]), host) <==> EndsWith(Labels(host), Labels(g.domains[k]))
      {
        DomainRuleByLabels(g.domains[k], host);
      }
    }
  }
}
