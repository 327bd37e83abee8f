// What the generated input rules do to DNS packets for the router itself, when
// the conversion aborts, and what a whole conversion promises.

module FirewallInput {
  import opened FirewallBuilder
  import opened FirewallMeaning
  import opened FirewallModel
  import opened FirewallTables
  import opened Options

  // A new connection to the router: the zones whose interface list has the
  // interface it comes in through, and that interface's VLAN.
  datatype RouterPacket = RouterPacket(zones: set<string>, vlan: Option<nat>, proto: string, port: nat)

  ghost predicate Heard(listen: Listen, p: RouterPacket) {
    match listen
    case ZoneList(zone) => zone in p.zones
    case VlanInterface(id) => p.vlan == Some(id)
  }

  // A rule without ports matches every port, one without a protocol every protocol.
  ghost predicate InputAccepts(env: Env, r: InputRule, p: RouterPacket) {
    Heard(r.listen, p) && (r.protocol.Some? ==> p.proto == r.protocol.value) && (r.ports != [] ==> AnyRos(env, r.ports, p.port))
  }

  ghost predicate RouterAccepts(env: Env, rules: map<InputKey, InputRule>, p: RouterPacket) {
    exists k :: k in rules && InputAccepts(env, rules[k], p)
  }

  // ---- why a packet is answered

  // It comes from the zone; from the outside zone only over its VLAN, if enabled.
  ghost predicate From(site: Site, cfg: Config, zone: string, p: RouterPacket) {
    if zone == site.outsideZone then
      zone in cfg.vlans && cfg.vlans[zone].enabled != Some(false) && p.vlan == Some(cfg.vlans[zone].id)
    else zone in p.zones
  }

  // Of the protocol; an alias to the empty string is no protocol match at all.
  ghost predicate OfProtocol(site: Site, proto: Option<string>, packet: string) {
    proto.None? || Alias(site, proto.value) == "" || VyosProto(site, proto, packet)
  }

  // An accept rule for one of the DNS port values. Of its matches the protocol and
  // the ports count, neither list nor address does; and a port group beside the
  // value takes its place, which is no match at all unless it is too long for one rule.
  ghost predicate DnsRule(site: Site, env: Env, r: Rule, p: RouterPacket) {
    && r.action == Some("accept") && r.portSpec.Some? && r.portSpec.value in site.dnsSpecs
    && OfProtocol(site, r.protocol, p.proto)
    && match r.portList
       case None => Tokens(r.portSpec.value) == [] || InSpec(env, r.portSpec.value, p.port)
       case Some(group) => |Group(env, group)| > 15 ==> AnyRos(env, Group(env, group), p.port)
  }

  // Plain DNS: TCP or UDP to "domain" or "domain-s".
  ghost predicate PlainDns(site: Site, env: Env, p: RouterPacket) {
    OfProtocol(site, Some("tcp_udp"), p.proto) && (env.vyosPort("domain", p.port) || env.vyosPort("domain-s", p.port))
  }

  // What a ruleset towards the containers lets through to their DNS: plain DNS if it
  // accepts by default, and what its DNS rules accept.
  ghost predicate ByDnsRuleset(site: Site, cfg: Config, env: Env, name: string, p: RouterPacket) {
    && name in cfg.rulesets && name in cfg.pairs && cfg.pairs[name].dst in site.unported
    && From(site, cfg, cfg.pairs[name].src, p)
    && (|| (cfg.rulesets[name].defaultAction == Some("accept") && PlainDns(site, env, p))
        || exists n :: n in cfg.rulesets[name].rules && DnsRule(site, env, cfg.rulesets[name].rules[n], p))
  }

  ghost predicate DnsJustified(site: Site, cfg: Config, env: Env, p: RouterPacket) {
    || (exists name :: ByDnsRuleset(site, cfg, env, name, p))
    || (From(site, cfg, site.nativeZone, p) && PlainDns(site, env, p))
  }

  // ---- from input rules to effects

  ghost predicate Fits(env: Env, v: Emitted, p: RouterPacket) {
    (v.protocol.Some? ==> p.proto == v.protocol.value) && (v.ports != [] ==> AnyRos(env, v.ports, p.port))
  }

  ghost predicate AnyFits(env: Env, variants: seq<Emitted>, p: RouterPacket) {
    exists v :: v in variants && Fits(env, v, p)
  }

  ghost predicate Answers(site: Site, cfg: Config, env: Env, e: Effect, p: RouterPacket) {
    e.Dns? && From(site, cfg, e.zone, p) && AnyFits(env, e.variants, p)
  }

  ghost predicate DnsGrants(site: Site, cfg: Config, env: Env, log: seq<Effect>, p: RouterPacket) {
    exists e :: e in log && Answers(site, cfg, env, e, p)
  }

  // Numbers are given out in ascending order, so that no rule replaces another.
  ghost predicate Numbered(inputs: Inputs) {
    forall k :: k in inputs.rules ==> k.number <= inputs.number
  }

  lemma AnyFitsMore(env: Env, variants: seq<Emitted>, v: Emitted, p: RouterPacket)
    ensures AnyFits(env, variants + [v], p) <==> AnyFits(env, variants, p) || Fits(env, v, p)
  {
    hide Fits;
    assert forall w :: w in variants + [v] <==> w in variants || w == v;
  }

  lemma OneMoreRule(env: Env, inputs: Inputs, key: InputKey, rule: InputRule, p: RouterPacket)
    requires Numbered(inputs) && key.number == inputs.number + 10
    ensures var more := Inputs(inputs.number + 10, inputs.rules[key := rule]);
            && Numbered(more)
            && (RouterAccepts(env, more.rules, p) <==> RouterAccepts(env, inputs.rules, p) || InputAccepts(env, rule, p))
  {
    hide InputAccepts;
    var rules := inputs.rules[key := rule];
    assert key !in inputs.rules;
    if RouterAccepts(env, inputs.rules, p) {
      var k :| k in inputs.rules && InputAccepts(env, inputs.rules[k], p);
      assert k in rules && rules[k] == inputs.rules[k];
    }
    if InputAccepts(env, rule, p) {
      assert key in rules && rules[key] == rule;
    }
  }

  lemma {:induction false} AddDnsAccepts(site: Site, cfg: Config, env: Env, zone: string, variants: seq<Emitted>, before: Inputs,
                                         p: RouterPacket)
    requires Numbered(before)
    ensures var after := AddDns(site, cfg.vlans, zone, variants, before);
            && Numbered(after)
            && (RouterAccepts(env, after.rules, p) <==>
                  RouterAccepts(env, before.rules, p) || (From(site, cfg, zone, p) && AnyFits(env, variants, p)))
  {
    hide RouterAccepts, Fits, AnyRos;
    if variants == [] {
      NothingFits(env, p);
    } else {
      var init, v := variants[..|variants| - 1], variants[|variants| - 1];
      assert variants == init + [v];
      AddDnsAccepts(site, cfg, env, zone, init, before, p);
      AnyFitsMore(env, init, v, p);
      AddOneAccepts(site, cfg, env, zone, v, AddDns(site, cfg.vlans, zone, init, before), p);
      AddDnsLast(site, cfg, zone, init, v, before);
      hide AddDns, From, AnyFits;
    }
  }

  lemma NothingFits(env: Env, p: RouterPacket)
    ensures !AnyFits(env, [], p)
  {}

  // What one variant adds to the input rules.
  function AddOne(site: Site, cfg: Config, zone: string, v: Emitted, done: Inputs): Inputs {
    var number := done.number + 10;
    if zone == site.outsideZone && (zone !in cfg.vlans || cfg.vlans[zone].enabled == Some(false)) then Inputs(number, done.rules)
    else
      var listen := if zone == site.outsideZone then VlanInterface(cfg.vlans[zone].id) else ZoneList(zone);
      Inputs(number, done.rules[InputKey(number, zone, v.protocol.GetOr("any")) := InputRule(listen, v.protocol, v.ports)])
  }

  lemma AddDnsLast(site: Site, cfg: Config, zone: string, init: seq<Emitted>, v: Emitted, before: Inputs)
    ensures AddDns(site, cfg.vlans, zone, init + [v], before) == AddOne(site, cfg, zone, v, AddDns(site, cfg.vlans, zone, init, before))
  {
    assert (init + [v])[..|init|] == init;
  }

  lemma AddOneAccepts(site: Site, cfg: Config, env: Env, zone: string, v: Emitted, done: Inputs, p: RouterPacket)
    requires Numbered(done)
    ensures var after := AddOne(site, cfg, zone, v, done);
            && Numbered(after)
            && (RouterAccepts(env, after.rules, p) <==> RouterAccepts(env, done.rules, p) || (From(site, cfg, zone, p) && Fits(env, v, p)))
  {
    hide RouterAccepts, AnyRos;
    if zone != site.outsideZone || (zone in cfg.vlans && cfg.vlans[zone].enabled != Some(false)) {
      var listen := if zone == site.outsideZone then VlanInterface(cfg.vlans[zone].id) else ZoneList(zone);
      OneMoreRule(env, done, InputKey(done.number + 10, zone, v.protocol.GetOr("any")), InputRule(listen, v.protocol, v.ports), p);
    }
  }

  // The input rules answer exactly what the DNS effects so far do.
  lemma {:induction false} InputsAccept(site: Site, cfg: Config, env: Env, log: seq<Effect>, p: RouterPacket)
    ensures Numbered(InputsOf(site, cfg.vlans, log))
    ensures RouterAccepts(env, InputsOf(site, cfg.vlans, log).rules, p) <==> DnsGrants(site, cfg, env, log, p)
  {
    hide Answers, AnyFits, From, AddDns;
    if log == [] {
    } else {
      var init, e := log[..|log| - 1], log[|log| - 1];
      assert log == init + [e];
      InputsAccept(site, cfg, env, init, p);
      DnsGrantsAppend(site, cfg, env, init, [e], p);
      OneDnsGrants(site, cfg, env, e, p);
      hide RouterAccepts, DnsGrants;
      if e.Dns? {
        AddDnsAccepts(site, cfg, env, e.zone, e.variants, InputsOf(site, cfg.vlans, init), p);
      }
    }
  }

  lemma DnsGrantsAppend(site: Site, cfg: Config, env: Env, a: seq<Effect>, b: seq<Effect>, p: RouterPacket)
    ensures DnsGrants(site, cfg, env, a + b, p) <==> DnsGrants(site, cfg, env, a, p) || DnsGrants(site, cfg, env, b, p)
  {
    hide Answers;
    assert forall e :: e in a + b <==> e in a || e in b;
  }

  lemma OneDnsGrants(site: Site, cfg: Config, env: Env, e: Effect, p: RouterPacket)
    ensures DnsGrants(site, cfg, env, [e], p) <==> e.Dns? && From(site, cfg, e.zone, p) && AnyFits(env, e.variants, p)
  {
    hide From, AnyFits;
    assert e in [e] && forall x :: x in [e] ==> x == e;
  }

  lemma NoDnsGrants(site: Site, cfg: Config, env: Env, p: RouterPacket)
    ensures !DnsGrants(site, cfg, env, [], p)
  {}

  // ---- from effects to reasons

  // The variants of a rule, as far as the input chain looks at them.
  lemma VariantsFit(site: Site, env: Env, r: Rule, p: RouterPacket)
    requires ServiceTableRight(site, env) && !r.unknown
    ensures AnyFits(env, Variants(site, env.portLists, r).value, p) <==>
            OfProtocol(site, r.protocol, p.proto) && exists c :: c in PortChunks(site, env.portLists, r) && (c != [] ==> AnyRos(env, c, p.port))
  {
    hide AnyRos, PortChunks, ExpandProtocol, AllVariants, ServiceTableRight;
    var protos, chunks := ExpandProtocol(site, r.protocol), PortChunks(site, env.portLists, r);
    var variants := Variants(site, env.portLists, r).value;
    ProtocolsMean(site, r, p.proto);
    assert EmittedProto(site, r, p.proto) <==> OfProtocol(site, r.protocol, p.proto);
    if v :| v in variants && Fits(env, v, p) {
      AllVariantsAre(env.portLists, r, protos, chunks, v);
      var q, c :| q in protos && c in chunks && v == Variant(env.portLists, r, q, c);
      assert ProtoFits(q, p.proto);
    }
    if EmittedProto(site, r, p.proto) {
      var q :| q in protos && ProtoFits(q, p.proto);
      if c :| c in chunks && (c != [] ==> AnyRos(env, c, p.port)) {
        var v := Variant(env.portLists, r, q, c);
        AllVariantsAre(env.portLists, r, protos, chunks, v);
        assert Fits(env, v, p);
      }
    }
  }

  lemma ChunksFit(site: Site, env: Env, r: Rule, port: nat)
    requires ServiceTableRight(site, env)
    ensures (exists c :: c in PortChunks(site, env.portLists, r) && (c != [] ==> AnyRos(env, c, port))) <==>
            match r.portList
            case Some(group) => |Group(env, group)| > 15 ==> AnyRos(env, Group(env, group), port)
            case None => r.portSpec.None? || Tokens(r.portSpec.value) == [] || InSpec(env, r.portSpec.value, port)
  {
    hide AnyRos, ServiceTableRight, Tokens, InSpec;
    var chunks := PortChunks(site, env.portLists, r);
    if r.portList.Some? && |Group(env, r.portList.value)| > 15 {
      ChunksMean(env, Group(env, r.portList.value), port);
    } else if r.portList.None? && r.portSpec.Some? && Tokens(r.portSpec.value) != [] {
      ChunksMean(env, Resolved(site, Tokens(r.portSpec.value)), port);
      SpecMeans(site, env, r.portSpec.value, port);
    } else {
      assert chunks == [[]] && [] in chunks;
    }
  }

  lemma DnsEffectAnswers(site: Site, cfg: Config, env: Env, zone: string, r: Rule, p: RouterPacket)
    requires ServiceTableRight(site, env) && env.portLists == cfg.portLists && DnsEffect(site, cfg, zone, r).Some?
    ensures DnsGrants(site, cfg, env, DnsEffect(site, cfg, zone, r).value, p) <==>
            && From(site, cfg, zone, p) && OfProtocol(site, r.protocol, p.proto)
            && match r.portList
               case Some(group) => |Group(env, group)| > 15 ==> AnyRos(env, Group(env, group), p.port)
               case None => r.portSpec.None? || Tokens(r.portSpec.value) == [] || InSpec(env, r.portSpec.value, p.port)
  {
    VariantsFit(site, env, r, p);
    ChunksFit(site, env, r, p.port);
    OneDnsGrants(site, cfg, env, Dns(zone, Variants(site, cfg.portLists, r).value), p);
    hide AnyRos, ServiceTableRight, From, AnyFits, OfProtocol, PortChunks, Tokens, InSpec, DnsGrants;
  }

  lemma TwoTokens(env: Env, spec: string, a: string, b: string, port: nat)
    requires Tokens(spec) == [a, b]
    ensures InSpec(env, spec, port) <==> env.vyosPort(a, port) || env.vyosPort(b, port)
  {
    hide Tokens;
    assert forall t :: t in [a, b] <==> t == a || t == b;
  }

  lemma DnsWords()
    ensures Plain("domain") && Plain("domain-s")
  {}

  lemma DnsSpec(env: Env, port: nat)
    ensures Tokens("domain,domain-s") != []
    ensures InSpec(env, "domain,domain-s", port) <==> env.vyosPort("domain", port) || env.vyosPort("domain-s", port)
  {
    var a, b := "domain", "domain-s";
    DnsWords();
    assert a + "," + b == "domain,domain-s";
    hide *;
    TokensPair(a, b);
    TwoTokens(env, "domain,domain-s", a, b, port);
  }

  lemma PlainDnsAnswers(site: Site, cfg: Config, env: Env, zone: string, p: RouterPacket)
    requires ServiceTableRight(site, env) && env.portLists == cfg.portLists && DnsEffect(site, cfg, zone, DNS_RULE).Some?
    ensures DnsGrants(site, cfg, env, DnsEffect(site, cfg, zone, DNS_RULE).value, p) <==>
            From(site, cfg, zone, p) && PlainDns(site, env, p)
  {
    DnsEffectAnswers(site, cfg, env, zone, DNS_RULE, p);
    DnsSpec(env, p.port);
    hide ServiceTableRight, From, DnsGrants, DnsEffect, Tokens, InSpec, OfProtocol;
  }

  lemma JoinsAnswerNothing(site: Site, cfg: Config, env: Env, effects: seq<Effect>, p: RouterPacket)
    requires forall e :: e in effects ==> e.Join?
    ensures !DnsGrants(site, cfg, env, effects, p)
  {}

  lemma ContainerRuleAnswers(site: Site, cfg: Config, env: Env, name: string, pair: Pair, r: Rule, p: RouterPacket)
    requires ServiceTableRight(site, env) && env.portLists == cfg.portLists && ContainerRule(site, cfg, name, pair, r).Some?
    ensures DnsGrants(site, cfg, env, ContainerRule(site, cfg, name, pair, r).value, p) <==>
            pair.dst in site.unported && From(site, cfg, pair.src, p) && DnsRule(site, env, r, p)
  {
    hide ServiceTableRight, Variants, RetargetDst, AnyRos, Tokens, InSpec, From, OfProtocol, DnsGrants;
    var effects := ContainerRule(site, cfg, name, pair, r).value;
    if r.action == Some("accept") && pair.dst in site.unported && IsDnsRule(site, r) {
      hide DnsEffect;
      DnsEffectAnswers(site, cfg, env, pair.src, r, p);
    } else {
      JoinsAnswerNothing(site, cfg, env, effects, p);
    }
  }

  lemma {:induction false} ContainerRulesAnswer(site: Site, cfg: Config, env: Env, name: string, pair: Pair,
                                                rules: map<nat, Rule>, nums: seq<nat>, p: RouterPacket)
    requires ServiceTableRight(site, env) && env.portLists == cfg.portLists && forall n :: n in nums ==> n in rules
    requires ContainerRules(site, cfg, name, pair, rules, nums).Some?
    ensures DnsGrants(site, cfg, env, ContainerRules(site, cfg, name, pair, rules, nums).value, p) <==>
            pair.dst in site.unported && From(site, cfg, pair.src, p) && exists n :: n in nums && DnsRule(site, env, rules[n], p)
    decreases nums
  {
    hide ServiceTableRight, DnsRule, ContainerRule, DnsGrants, From;
    if nums == [] {
      NoDnsGrants(site, cfg, env, p);
    } else {
      assert nums == [nums[0]] + nums[1..];
      ContainerRuleAnswers(site, cfg, env, name, pair, rules[nums[0]], p);
      ContainerRulesAnswer(site, cfg, env, name, pair, rules, nums[1..], p);
      DnsGrantsAppend(site, cfg, env, ContainerRule(site, cfg, name, pair, rules[nums[0]]).value,
                      ContainerRules(site, cfg, name, pair, rules, nums[1..]).value, p);
    }
  }

  lemma RulesetAnswers(site: Site, cfg: Config, env: Env, name: string, p: RouterPacket)
    requires ServiceTableRight(site, env) && env.portLists == cfg.portLists
    requires name in cfg.rulesets && RulesetEffects(site, cfg, name).Some?
    ensures DnsGrants(site, cfg, env, RulesetEffects(site, cfg, name).value, p) <==> ByDnsRuleset(site, cfg, env, name, p)
  {
    hide ServiceTableRight, DnsRule, ContainerRules, NormalRules, DnsEffect, DnsGrants, From, PlainDns;
    if name !in cfg.pairs {
      NoDnsGrants(site, cfg, env, p);
      return;
    }
    var pair, rs := cfg.pairs[name], cfg.rulesets[name];
    var nums := Numbers(rs.rules.Keys);
    assert forall n :: n in nums <==> n in rs.rules;
    if Ordinary(site, pair) {
      JoinsAnswerNothing(site, cfg, env, RulesetEffects(site, cfg, name).value, p);
    } else {
      ContainerRulesAnswer(site, cfg, env, name, pair, rs.rules, nums, p);
      var ofRules := ContainerRules(site, cfg, name, pair, rs.rules, nums).value;
      if pair.dst in site.unported && rs.Default() == "accept" {
        PlainDnsAnswers(site, cfg, env, pair.src, p);
        DnsGrantsAppend(site, cfg, env, DnsEffect(site, cfg, pair.src, DNS_RULE).value, ofRules, p);
      } else {
        assert [] + ofRules == ofRules;
      }
    }
  }

  lemma {:induction false} RulesetsAnswer(site: Site, cfg: Config, env: Env, names: seq<string>, p: RouterPacket)
    requires ServiceTableRight(site, env) && env.portLists == cfg.portLists && forall n :: n in names ==> n in cfg.rulesets
    requires RulesetsEffects(site, cfg, names).Some?
    ensures DnsGrants(site, cfg, env, RulesetsEffects(site, cfg, names).value, p) <==>
            exists name :: name in names && ByDnsRuleset(site, cfg, env, name, p)
  {
    hide ServiceTableRight, RulesetEffects, ByDnsRuleset, DnsGrants;
    if names == [] {
      NoDnsGrants(site, cfg, env, p);
    } else {
      assert names == [names[0]] + names[1..];
      RulesetAnswers(site, cfg, env, names[0], p);
      RulesetsAnswer(site, cfg, env, names[1..], p);
      DnsGrantsAppend(site, cfg, env, RulesetEffects(site, cfg, names[0]).value, RulesetsEffects(site, cfg, names[1..]).value, p);
    }
  }

  lemma {:induction false} NativeJoins(site: Site, zones: seq<string>)
    ensures forall e :: e in NativeEffects(site, zones) ==> e.Join?
  {
    if zones != [] {
      NativeJoins(site, zones[1..]);
    }
  }

  lemma {:induction false} TableJoins(site: Site, cfg: Config, pair: Pair, rules: seq<Rule>)
    requires TableRules(site, cfg, pair, rules).Some?
    ensures forall e :: e in TableRules(site, cfg, pair, rules).value ==> e.Join?
  {
    if rules != [] {
      TableJoins(site, cfg, pair, rules[1..]);
    }
  }

  lemma {:induction false} TablesJoin(site: Site, cfg: Config, tables: seq<(Pair, seq<Rule>)>)
    requires TableEffects(site, cfg, tables).Some?
    ensures forall e :: e in TableEffects(site, cfg, tables).value ==> e.Join?
  {
    if tables != [] {
      TableJoins(site, cfg, tables[0].0, tables[0].1);
      TablesJoin(site, cfg, tables[1..]);
    }
  }

  // The input rules of a whole conversion answer a packet as DNS iff a ruleset
  // towards the containers let it through to theirs, or the native VLAN sent it.
  lemma DnsAcceptedIffJustified(site: Site, cfg: Config, env: Env, names: seq<string>, p: RouterPacket)
    requires ServiceTableRight(site, env) && env.portLists == cfg.portLists && forall n :: n in names <==> n in cfg.rulesets
    requires AllEffects(site, cfg, names).Some?
    ensures RouterAccepts(env, InputsOf(site, cfg.vlans, AllEffects(site, cfg, names).value).rules, p) <==>
            DnsJustified(site, cfg, env, p)
  {
    hide ServiceTableRight, DnsGrants, RulesetsEffects, NativeEffects, DnsEffect, TableEffects, ByDnsRuleset, From, PlainDns,
      RouterAccepts, InputsOf;
    InputsAccept(site, cfg, env, AllEffects(site, cfg, names).value, p);
    var ofRulesets := RulesetsEffects(site, cfg, names).value;
    var native, dns := NativeEffects(site, site.nativeAccess), DnsEffect(site, cfg, site.nativeZone, DNS_RULE).value;
    var ofTables := TableEffects(site, cfg, site.extra).value;
    RulesetsAnswer(site, cfg, env, names, p);
    NativeJoins(site, site.nativeAccess);
    JoinsAnswerNothing(site, cfg, env, native, p);
    PlainDnsAnswers(site, cfg, env, site.nativeZone, p);
    TablesJoin(site, cfg, site.extra);
    JoinsAnswerNothing(site, cfg, env, ofTables, p);
    DnsGrantsAppend(site, cfg, env, native, dns, p);
    DnsGrantsAppend(site, cfg, env, ofRulesets, native + dns, p);
    DnsGrantsAppend(site, cfg, env, ofRulesets + (native + dns), ofTables, p);
    assert (exists name :: name in names && ByDnsRuleset(site, cfg, env, name, p)) <==> exists name :: ByDnsRuleset(site, cfg, env, name, p) by {
      NamedRulesets(site, cfg, env, names, p);
    }
  }

  lemma NamedRulesets(site: Site, cfg: Config, env: Env, names: seq<string>, p: RouterPacket)
    requires forall n :: n in names <==> n in cfg.rulesets
    ensures (exists name :: name in names && ByDnsRuleset(site, cfg, env, name, p)) <==> exists name :: ByDnsRuleset(site, cfg, env, name, p)
  {
    if name :| ByDnsRuleset(site, cfg, env, name, p) {
      assert name in names;
    }
  }

  // ---- when the conversion aborts

  // The outside zone's DNS needs its VLAN.
  ghost predicate NoVlan(site: Site, cfg: Config, zone: string) {
    zone == site.outsideZone && zone !in cfg.vlans
  }

  // A rule whose matches are not all translated, or that does something else than
  // accept between two zones that stay, or DNS from an outside zone without a VLAN.
  // Rules that are dropped may be anything.
  ghost predicate RuleAborts(site: Site, cfg: Config, name: string, pair: Pair, r: Rule) {
    if pair.dst in site.unported then
      && r.action == Some("accept")
      && (if r.portSpec.Some? && r.portSpec.value in site.dnsSpecs then r.unknown || NoVlan(site, cfg, pair.src)
          else r.unknown && pair.src != site.successor && exists list :: NewHome(site, r, list))
    else if pair.src in site.unported then
      r.action == Some("accept") && r.unknown && name in site.sourceRulesets && pair.dst != site.successor
    else r.action != Some("accept") || r.unknown
  }

  ghost predicate RulesetAborts(site: Site, cfg: Config, name: string) {
    && name in cfg.rulesets && name in cfg.pairs
    && (|| (exists n :: n in cfg.rulesets[name].rules && RuleAborts(site, cfg, name, cfg.pairs[name], cfg.rulesets[name].rules[n]))
        || (&& cfg.pairs[name].dst in site.unported && cfg.rulesets[name].defaultAction == Some("accept")
            && NoVlan(site, cfg, cfg.pairs[name].src)))
  }

  ghost predicate Aborts(site: Site, cfg: Config) {
    || (exists name :: RulesetAborts(site, cfg, name))
    || NoVlan(site, cfg, site.nativeZone)
    || exists i, r :: 0 <= i < |site.extra| && r in site.extra[i].1 && r.unknown
  }

  lemma VariantsAreSome(site: Site, portLists: map<string, seq<string>>, r: Rule)
    ensures Variants(site, portLists, r).Some? <==> !r.unknown
    ensures !r.unknown ==> Variants(site, portLists, r).value != []
  {
    if !r.unknown {
      var protos, chunks := ExpandProtocol(site, r.protocol), PortChunks(site, portLists, r);
      AllVariantsAre(portLists, r, protos, chunks, Variant(portLists, r, protos[0], chunks[0]));
    }
  }

  lemma ContainerRuleAborts(site: Site, cfg: Config, name: string, pair: Pair, r: Rule)
    requires !Ordinary(site, pair)
    ensures ContainerRule(site, cfg, name, pair, r).None? <==> RuleAborts(site, cfg, name, pair, r)
  {
    hide Variants, NewHome, RetargetDst;
    forall list ensures NewHome(site, r, list) <==> RetargetDst(site, r) == Some(list) {
      RetargetIsNewHome(site, r, list);
    }
    VariantsAreSome(site, cfg.portLists, r);
    var dst := RetargetDst(site, r);
    if dst.Some? {
      VariantsAreSome(site, cfg.portLists, r.(dstList := dst));
    }
    if name in site.sourceRulesets {
      VariantsAreSome(site, cfg.portLists, r.(srcList := Some(site.sourceRulesets[name])));
    }
  }

  lemma {:induction false} ContainerRulesAbort(site: Site, cfg: Config, name: string, pair: Pair, rules: map<nat, Rule>, nums: seq<nat>)
    requires !Ordinary(site, pair) && forall n :: n in nums ==> n in rules
    ensures ContainerRules(site, cfg, name, pair, rules, nums).None? <==>
            exists n :: n in nums && RuleAborts(site, cfg, name, pair, rules[n])
    decreases nums
  {
    hide ContainerRule, RuleAborts, Ordinary;
    if nums != [] {
      assert nums == [nums[0]] + nums[1..];
      ContainerRuleAborts(site, cfg, name, pair, rules[nums[0]]);
      ContainerRulesAbort(site, cfg, name, pair, rules, nums[1..]);
    }
  }

  lemma {:induction false} NormalRulesAbort(site: Site, cfg: Config, name: string, pair: Pair, rules: map<nat, Rule>, nums: seq<nat>)
    requires Ordinary(site, pair) && forall n :: n in nums ==> n in rules
    ensures NormalRules(site, cfg, rules, nums).None? <==> exists n :: n in nums && RuleAborts(site, cfg, name, pair, rules[n])
    decreases nums
  {
    hide Variants;
    if nums != [] {
      assert nums == [nums[0]] + nums[1..];
      VariantsAreSome(site, cfg.portLists, rules[nums[0]]);
      NormalRulesAbort(site, cfg, name, pair, rules, nums[1..]);
    }
  }

  lemma DnsEffectAborts(site: Site, cfg: Config, zone: string)
    ensures DnsEffect(site, cfg, zone, DNS_RULE).None? <==> NoVlan(site, cfg, zone)
  {
    VariantsAreSome(site, cfg.portLists, DNS_RULE);
    hide Variants;
  }

  lemma RulesetAbortsIs(site: Site, cfg: Config, name: string)
    requires name in cfg.rulesets
    ensures RulesetEffects(site, cfg, name).None? <==> RulesetAborts(site, cfg, name)
  {
    hide RuleAborts, ContainerRules, NormalRules, DnsEffect, NoVlan;
    if name in cfg.pairs {
      var pair, rs := cfg.pairs[name], cfg.rulesets[name];
      var nums := Numbers(rs.rules.Keys);
      assert forall n :: n in nums <==> n in rs.rules;
      if Ordinary(site, pair) {
        NormalRulesAbort(site, cfg, name, pair, rs.rules, nums);
      } else {
        ContainerRulesAbort(site, cfg, name, pair, rs.rules, nums);
        DnsEffectAborts(site, cfg, pair.src);
      }
    }
  }

  lemma {:induction false} RulesetsAbort(site: Site, cfg: Config, names: seq<string>)
    requires forall n :: n in names ==> n in cfg.rulesets
    ensures RulesetsEffects(site, cfg, names).None? <==> exists name :: name in names && RulesetAborts(site, cfg, name)
  {
    hide RulesetEffects, RulesetAborts;
    if names != [] {
      assert names == [names[0]] + names[1..];
      RulesetAbortsIs(site, cfg, names[0]);
      RulesetsAbort(site, cfg, names[1..]);
    }
  }

  lemma {:induction false} TableAborts(site: Site, cfg: Config, pair: Pair, rules: seq<Rule>)
    ensures TableRules(site, cfg, pair, rules).None? <==> exists r :: r in rules && r.unknown
  {
    hide Variants;
    if rules != [] {
      assert rules == [rules[0]] + rules[1..];
      VariantsAreSome(site, cfg.portLists, rules[0]);
      TableAborts(site, cfg, pair, rules[1..]);
    }
  }

  ghost predicate AnyUnknown(tables: seq<(Pair, seq<Rule>)>) {
    exists i, r :: 0 <= i < |tables| && r in tables[i].1 && r.unknown
  }

  lemma AnyUnknownCons(tables: seq<(Pair, seq<Rule>)>)
    requires tables != []
    ensures AnyUnknown(tables) <==> (exists r :: r in tables[0].1 && r.unknown) || AnyUnknown(tables[1..])
  {
    if AnyUnknown(tables[1..]) {
      var i, r :| 0 <= i < |tables[1..]| && r in tables[1..][i].1 && r.unknown;
      assert r in tables[i + 1].1;
    }
    if AnyUnknown(tables) {
      var i, r :| 0 <= i < |tables| && r in tables[i].1 && r.unknown;
      if i > 0 {
        assert r in tables[1..][i - 1].1;
      }
    }
  }

  lemma {:induction false} TablesAbort(site: Site, cfg: Config, tables: seq<(Pair, seq<Rule>)>)
    ensures TableEffects(site, cfg, tables).None? <==> AnyUnknown(tables)
  {
    hide TableRules;
    if tables != [] {
      TableAborts(site, cfg, tables[0].0, tables[0].1);
      TablesAbort(site, cfg, tables[1..]);
      AnyUnknownCons(tables);
      hide AnyUnknown;
    }
  }

  lemma AbortsIs(site: Site, cfg: Config, names: seq<string>)
    requires forall n :: n in names <==> n in cfg.rulesets
    ensures AllEffects(site, cfg, names).None? <==> Aborts(site, cfg)
  {
    hide RulesetAborts, NoVlan, RulesetsEffects, DnsEffect, TableEffects, NativeEffects;
    RulesetsAbort(site, cfg, names);
    DnsEffectAborts(site, cfg, site.nativeZone);
    TablesAbort(site, cfg, site.extra);
    assert (exists name :: RulesetAborts(site, cfg, name)) <==> exists name :: name in names && RulesetAborts(site, cfg, name) by {
      AbortingNames(site, cfg, names);
    }
  }

  lemma AbortingNames(site: Site, cfg: Config, names: seq<string>)
    requires forall n :: n in names <==> n in cfg.rulesets
    ensures (exists name :: RulesetAborts(site, cfg, name)) <==> exists name :: name in names && RulesetAborts(site, cfg, name)
  {
    if name :| RulesetAborts(site, cfg, name) {
      assert name in names;
    }
  }

  // ---- the whole conversion

  // What a conversion promises of a packet between zones: the chain, with the
  // policies and their rules laid out in any order, forwards it iff it is justified.
  ghost predicate ForwardsRightly(site: Site, cfg: Config, policies: map<Key, Policy>) {
    forall env: Env, zones: set<string>, keys: seq<Key>, listing: map<Key, seq<Emitted>>, p: Packet ::
      WellFormed(site, cfg, env) && LaidOut(policies, zones, keys, listing) && p.src in zones && p.dst in zones ==>
        ChainIsRight(site, cfg, env, policies, keys, listing, p)
  }

  ghost predicate ChainIsRight(site: Site, cfg: Config, env: Env, policies: map<Key, Policy>, keys: seq<Key>,
                               listing: map<Key, seq<Emitted>>, p: Packet)
  {
    Lists(policies, keys, listing) && (Forwards(env, Chain(policies, keys, listing), p) <==> Justified(site, cfg, env, p))
  }

  // And of one to the router itself.
  ghost predicate AnswersRightly(site: Site, cfg: Config, rules: map<InputKey, InputRule>) {
    forall env: Env, p: RouterPacket :: ServiceTableRight(site, env) && env.portLists == cfg.portLists ==>
      (RouterAccepts(env, rules, p) <==> DnsJustified(site, cfg, env, p))
  }

  // The rulesets converted in any order: the conversion aborts exactly when it
  // must, and otherwise the firewall it built forwards and answers exactly what
  // is justified.
  method Convert(site: Site, cfg: Config, names: seq<string>)
    returns (ok: bool, policies: map<Key, Policy>, inputs: map<InputKey, InputRule>)
    requires forall n :: n in names <==> n in cfg.rulesets
    ensures ok <==> !Aborts(site, cfg)
    ensures ok ==> ForwardsRightly(site, cfg, policies) && AnswersRightly(site, cfg, inputs)
  {
    hide Mirrors, InputsOf, AllEffects, Aborts, ForwardsRightly, AnswersRightly;
    var builder := new ZonePolicyBuilder(site, cfg);
    ok := builder.Build(names);
    AbortsIs(site, cfg, names);
    policies, inputs := builder.policies, builder.inputs.rules;
    if ok {
      ForwardsAll(site, cfg, names, policies, builder.pairKeys, builder.sequence);
      AnswersAll(site, cfg, names);
    }
  }

  lemma ForwardsAll(site: Site, cfg: Config, names: seq<string>, policies: map<Key, Policy>, pairKeys: map<Pair, Key>, sequence: nat)
    requires (forall n :: n in names <==> n in cfg.rulesets) && AllEffects(site, cfg, names).Some?
    requires Mirrors(policies, pairKeys, sequence, AllEffects(site, cfg, names).value)
    ensures ForwardsRightly(site, cfg, policies)
  {
    hide Mirrors, AllEffects, WellFormed, LaidOut, Forwards, Chain, Justified;
    forall env: Env, zones: set<string>, keys: seq<Key>, listing: map<Key, seq<Emitted>>, p: Packet |
      WellFormed(site, cfg, env) && LaidOut(policies, zones, keys, listing) && p.src in zones && p.dst in zones
      ensures ChainIsRight(site, cfg, env, policies, keys, listing, p)
    {
      ForwardedIffJustified(site, cfg, env, names, policies, pairKeys, sequence, zones, keys, listing, p);
    }
  }

  lemma AnswersAll(site: Site, cfg: Config, names: seq<string>)
    requires (forall n :: n in names <==> n in cfg.rulesets) && AllEffects(site, cfg, names).Some?
    ensures AnswersRightly(site, cfg, InputsOf(site, cfg.vlans, AllEffects(site, cfg, names).value).rules)
  {
    hide AllEffects, InputsOf, RouterAccepts, DnsJustified, ServiceTableRight;
    forall env: Env, p: RouterPacket | ServiceTableRight(site, env) && env.portLists == cfg.portLists
      ensures RouterAccepts(env, InputsOf(site, cfg.vlans, AllEffects(site, cfg, names).value).rules, p) <==>
              DnsJustified(site, cfg, env, p)
    {
      DnsAcceptedIffJustified(site, cfg, env, names, p);
    }
  }

  // ---- with the script's tables

  // Plain DNS is TCP and UDP to ports 53 and 853.
  lemma PlainDnsIs(env: Env, p: RouterPacket)
    requires ServiceTableRight(SITE, env)
    ensures PlainDns(SITE, env, p) <==> p.proto in {"tcp", "udp"} && (env.rosPort("53", p.port) || env.rosPort("853", p.port))
  {
    DnsTableEntries();
    assert env.vyosPort("domain", p.port) <==> env.rosPort(Service(SITE, "domain"), p.port);
    assert env.vyosPort("domain-s", p.port) <==> env.rosPort(Service(SITE, "domain-s"), p.port);
    hide SITE, ServiceTableRight, Service, Alias;
  }

  lemma DnsTableEntries()
    ensures Service(SITE, "domain") == "53" && Service(SITE, "domain-s") == "853" && Alias(SITE, "tcp_udp") == "tcp_udp"
  {}

  // A rule with a DNS port value and no port group opens no other port.
  lemma DnsValueOpens(env: Env, r: Rule, p: RouterPacket)
    requires ServiceTableRight(SITE, env) && r.portList.None? && DnsRule(SITE, env, r, p)
    ensures env.rosPort("53", p.port) || env.rosPort("853", p.port)
  {
    DnsRulesOpenDnsPorts(r);
    DnsValueHasTokens(r);
    SpecMeans(SITE, env, r.portSpec.value, p.port);
    hide SITE, ServiceTableRight, Resolved, Tokens, InSpec, OfProtocol;
    var t :| t in Resolved(SITE, Tokens(r.portSpec.value)) && env.rosPort(t, p.port);
  }

  lemma DnsValueHasTokens(r: Rule)
    requires IsDnsRule(SITE, r)
    ensures Tokens(r.portSpec.value) != []
  {
    hide Tokens;
    DnsTokens("domain");
    DnsTokens("53");
    TokensPair("domain", "domain-s");
    TokensPair("53", "853");
    assert "domain" + "," + "domain-s" == "domain,domain-s" && "53" + "," + "853" == "53,853";
    assert r.portSpec.value in {"domain,domain-s", "domain", "53", "53,853"};
  }

  // One with a group beside it, of up to 15 ports, opens every port.
  lemma DnsBesideGroupOpensAll(site: Site, env: Env, r: Rule, p: RouterPacket, port: nat)
    requires r.portList.Some? && |Group(env, r.portList.value)| <= 15 && DnsRule(site, env, r, p)
    ensures DnsRule(site, env, r, p.(port := port))
  {}
}
