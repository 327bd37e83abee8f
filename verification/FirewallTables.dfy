// The tables vyos-to-locals.py carries, as the Site the generator runs with,
// and what they mean for the container rules and the DNS input rules.

module FirewallTables {
  import opened FirewallBuilder
  import opened FirewallModel
  import opened Options

  const SERVICE_PORTS := map[
    "domain" := "53", "domain-s" := "853", "http" := "80", "https" := "443", "ssh" := "22",
    "ntp" := "123", "mdns" := "5353", "microsoft-ds" := "445", "bgp" := "179", "bootps" := "67",
    "bootpc" := "68", "snmp" := "161", "tftp" := "69"]

  function TableRule(protocol: Option<string>, port: Option<string>, srcList: Option<string>,
                     dstList: Option<string>, dstAddr: Option<string>): Rule
  {
    Rule(None, protocol, srcList, dstList, None, dstAddr, None, port, false)
  }

  const ADMIN_PEERS := TableRule(None, None, Some("admin_peers"), None, None)

  // EXTRA_ZONE_RULES with the admin peers' entries main() adds, CI_ZONE_RULES, MONITORING_ZONE_RULES.
  const ZONE_RULES: seq<(Pair, seq<Rule>)> := [
    (Pair("unifi-frontend-910", "seccam-610"),
     [TableRule(Some("tcp_udp"), Some("554"), Some("frigate"), Some("security_cameras"), None)]),
    (Pair("vpn-mobile", "switch-mgmt"), [ADMIN_PEERS]),
    (Pair("vpn-mobile", "unifi-mgmt-900"), [ADMIN_PEERS]),
    (Pair("vpn-mobile", "UISP-140"), [ADMIN_PEERS]),
    (Pair("vpn-ci", "UISP-140"),
     [TableRule(Some("tcp"), Some("22"), None, None, Some("10.10.140.140"))]),
    (Pair("unifi-frontend-910", "unifi-mgmt-900"),
     [TableRule(Some("icmp"), None, Some("monitoring"), None, Some("10.10.90.11-10.10.90.13"))]),
    (Pair("unifi-frontend-910", "switch-mgmt"),
     [TableRule(Some("udp"), Some("161"), Some("monitoring"), None, Some("10.98.0.251")),
      TableRule(Some("icmp"), None, Some("monitoring"), None, Some("10.98.0.251"))])]

  const SITE := Site(
    SERVICE_PORTS,
    map["2" := "igmp"],
    {"containers"},
    "unifi-frontend-910",
    {"domain,domain-s", "domain", "53", "53,853"},
    map["unifi_controller" := "unifi_controller"],
    {"haproxy_all", "haproxy_frontend", "haproxy_authenticated"},
    map["unifi_controller_ports" := "unifi_controller"],
    map["containers-unifi-mgmt-900" := "unifi_controller"],
    "transit-10",
    ["vpn"],
    "switch-mgmt",
    ZONE_RULES)

  const RETIRED_ZONES := {"ad-110", "app-720", "bastion-410", "iLO-550", "pve-11", "k8s-120"}

  // The UniFi controller is the only container a rule can still be about.
  lemma OnlyTheControllerIsRetargeted(r: Rule)
    ensures RetargetDst(SITE, r) in {None, Some("unifi_controller")}
    ensures RetargetDst(SITE, r).Some? <==>
            r.dstList == Some("unifi_controller") || (r.dstList == None && r.portList == Some("unifi_controller_ports"))
  {
    assert SITE.containerGroups.Values == {"unifi_controller"} by {
      assert "unifi_controller" in SITE.containerGroups;
    }
  }

  // One plain token: nothing to trim and no comma.
  ghost predicate Plain(s: string) {
    s != "" && forall i :: 0 <= i < |s| ==> s[i] !in WHITESPACE && s[i] != '\'' && s[i] != '"' && s[i] != ','
  }

  lemma {:induction false} SplitPlain(s: string)
    requires forall i :: 0 <= i < |s| ==> s[i] != ','
    ensures Split(s, ',') == [s]
  {
    if s != [] {
      SplitPlain(s[1..]);
      assert [s[0]] + s[1..] == s;
    }
  }

  function Joined(parts: seq<string>): string
    requires parts != []
  {
    if |parts| == 1 then parts[0] else parts[0] + "," + Joined(parts[1..])
  }

  lemma {:induction false} SplitJoined(parts: seq<string>)
    requires parts != [] && forall t :: t in parts ==> forall i :: 0 <= i < |t| ==> t[i] != ','
    ensures Split(Joined(parts), ',') == parts
  {
    if |parts| == 1 {
      SplitPlain(parts[0]);
    } else {
      SplitJoined(parts[1..]);
      SplitAtComma(parts[0], Joined(parts[1..]));
      assert [parts[0]] + parts[1..] == parts;
    }
  }

  lemma {:induction false} SplitAtComma(a: string, rest: string)
    requires forall i :: 0 <= i < |a| ==> a[i] != ','
    ensures Split(a + "," + rest, ',') == [a] + Split(rest, ',')
  {
    if a == [] {
      assert (a + "," + rest)[1..] == rest;
    } else {
      assert (a + "," + rest)[1..] == a[1..] + "," + rest;
      SplitAtComma(a[1..], rest);
      assert [a[0]] + a[1..] == a;
    }
  }

  lemma {:induction false} NonEmptyPlain(parts: seq<string>)
    requires forall t :: t in parts ==> Plain(t)
    ensures NonEmpty(parts) == parts
  {
    if parts != [] {
      NonEmptyPlain(parts[1..]);
      assert Plain(parts[0]);
      assert Trim(parts[0], WHITESPACE) == parts[0];
      assert [parts[0]] + parts[1..] == parts;
    }
  }

  lemma {:induction false} JoinedEnds(parts: seq<string>)
    requires parts != [] && forall t :: t in parts ==> Plain(t)
    ensures Plain(parts[0]) && Plain(parts[|parts| - 1])
    ensures var s := Joined(parts);
            s != "" && s[0] == parts[0][0] && s[|s| - 1] == parts[|parts| - 1][|parts[|parts| - 1]| - 1]
  {
    assert Plain(parts[0]);
    if |parts| > 1 {
      JoinedEnds(parts[1..]);
    }
  }

  // A `destination port` value is read as the list it is, bare or in either quotes.
  lemma TokensOfList(parts: seq<string>, spec: string)
    requires parts != [] && forall t :: t in parts ==> Plain(t)
    requires spec in {Joined(parts), "'" + Joined(parts) + "'", "\"" + Joined(parts) + "\""}
    ensures Tokens(spec) == parts
  {
    hide Split, NonEmpty;
    var s := Joined(parts);
    JoinedEnds(parts);
    assert Plain(parts[0]) && Plain(parts[|parts| - 1]);
    SplitJoined(parts);
    NonEmptyPlain(parts);
    if spec == s {
      BareEnds(s);
    } else if spec == "'" + s + "'" {
      QuotedEnds(s, '\'', '"');
    } else {
      QuotedEnds(s, '"', '\'');
    }
  }

  // Neither blank nor quote at either end.
  ghost predicate Bare(s: string) {
    s != "" && s[0] !in WHITESPACE + {'\'', '"'} && s[|s| - 1] !in WHITESPACE + {'\'', '"'}
  }

  lemma BareEnds(s: string)
    requires Bare(s)
    ensures Trim(Trim(Trim(s, WHITESPACE), {'\''}), {'"'}) == s
  {}

  lemma QuotedEnds(s: string, quote: char, other: char)
    requires Bare(s) && {quote, other} == {'\'', '"'}
    ensures Trim(Trim(Trim([quote] + s + [quote], WHITESPACE), {'\''}), {'"'}) == s
  {
    var q := [quote] + s + [quote];
    assert Trim(q, WHITESPACE) == q;
    assert q[1..] == s + [quote] && (s + [quote])[..|s|] == s;
    assert TrimStart(q, {quote}) == TrimStart(s + [quote], {quote}) == s + [quote];
    assert TrimEnd(s + [quote], {quote}) == TrimEnd(s, {quote}) == s;
    assert Trim(q, {other}) == q;
    assert Trim(s, {other}) == s && Trim(s, {quote}) == s;
  }

  lemma TokensPlain(s: string)
    requires Plain(s)
    ensures Tokens(s) == [s]
  {
    TokensOfList([s], s);
  }

  lemma TokensPair(a: string, b: string)
    requires Plain(a) && Plain(b)
    ensures Tokens(a + "," + b) == [a, b]
  {
    assert [a, b][1..] == [b];
    TokensOfList([a, b], a + "," + b);
  }

  // No table names a retired zone.
  lemma TablesSpareRetiredZones()
    ensures forall i :: 0 <= i < |ZONE_RULES| ==>
              ZONE_RULES[i].0.src !in RETIRED_ZONES && ZONE_RULES[i].0.dst !in RETIRED_ZONES
  {}

  // Every table rule is translatable, for any reading of addresses and ports.
  lemma TablesAreTranslatable(env: Env, i: nat, r: Rule)
    requires i < |ZONE_RULES| && r in ZONE_RULES[i].1
    ensures Translatable(SITE, env, r)
  {
    hide Tokens;
    TokensPlain("554");
    TokensPlain("22");
    TokensPlain("161");
    assert r.portList == None && r.protocol in {None, Some("tcp_udp"), Some("tcp"), Some("udp"), Some("icmp")};
    assert r.portSpec in {None, Some("554"), Some("22"), Some("161")};
  }

  // Whatever is moved to the input chain as DNS only opens ports 53 and 853.
  lemma DnsRulesOpenDnsPorts(r: Rule)
    requires IsDnsRule(SITE, r)
    ensures forall t :: t in Resolved(SITE, Tokens(r.portSpec.value)) ==> t in {"53", "853"}
  {
    hide Tokens, Resolved, Service;
    DnsTokens("domain");
    DnsTokens("53");
    TokensPair("domain", "domain-s");
    TokensPair("53", "853");
    DnsServices();
    assert "domain" + "," + "domain-s" == "domain,domain-s" && "53" + "," + "853" == "53,853";
    assert r.portSpec.value in {"domain,domain-s", "domain", "53", "53,853"};
    assert Tokens(r.portSpec.value) in {["domain", "domain-s"], ["domain"], ["53"], ["53", "853"]};
    assert forall t :: t in Tokens(r.portSpec.value) ==> t in {"domain", "domain-s", "53", "853"};
  }

  lemma DnsServices()
    ensures forall t :: t in {"domain", "domain-s", "53", "853"} ==> Service(SITE, t) in {"53", "853"}
  {}

  lemma DnsTokens(t: string)
    requires t in {"domain", "53"}
    ensures Tokens(t) == [t]
  {
    hide Tokens;
    TokensPlain(t);
  }
}
