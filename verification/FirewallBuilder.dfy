// `build_zone_policies`: the effects each ruleset has on the set of zone-pair
// policies, and the builder that applies them to its maps.

module FirewallBuilder {
  import opened FirewallModel
  import opened Options

  datatype Vlan = Vlan(id: nat, enabled: Option<bool>)

  datatype Config = Config(
    rulesets: map<string, Ruleset>,
    pairs: map<string, Pair>,             // ruleset -> the zone pair it is bound to
    portLists: map<string, seq<string>>,
    vlans: map<string, Vlan>)

  // One call of get_pair with the rules then added to the policy, or one of add_dns_input.
  datatype Effect = Join(pair: Pair, native: Option<string>, rules: seq<Emitted>)
                  | Dns(zone: string, variants: seq<Emitted>)

  const DNS_RULE := Rule(None, Some("tcp_udp"), None, None, None, None, None, Some("domain,domain-s"), false)

  // ---- what each rule, ruleset and table does; None is an abort

  function Least(s: set<nat>): (n: nat)
    requires s != {}
    ensures n in s && forall m :: m in s ==> n <= m
  {
    assert exists n :: n in s && forall m :: m in s ==> n <= m by {
      var x :| x in s;
      HasLeast(s, x);
    }
    var n :| n in s && forall m :: m in s ==> n <= m;
    n
  }

  lemma {:induction false} HasLeast(s: set<nat>, x: nat)
    requires x in s
    ensures exists n :: n in s && forall m :: m in s ==> n <= m
    decreases x
  {
    if y :| y in s && y < x {
      HasLeast(s, y);
    }
  }

  // Rule numbers in ascending order.
  function Numbers(s: set<nat>): (r: seq<nat>)
    ensures forall n :: n in r <==> n in s
    decreases |s|
  {
    if s == {} then [] else [Least(s)] + Numbers(s - {Least(s)})
  }

  lemma {:induction false} NumbersAscend(s: set<nat>)
    ensures forall i, j :: 0 <= i < j < |Numbers(s)| ==> Numbers(s)[i] < Numbers(s)[j]
    decreases |s|
  {
    if s != {} {
      var least := Least(s);
      hide Least;
      var rest := Numbers(s - {least});
      NumbersAscend(s - {least});
      assert Numbers(s) == [least] + rest;
      assert forall j :: 0 <= j < |rest| ==> rest[j] in s - {least};
    }
  }

  // The address list that replaces a container rule's destination; None when
  // the rule only existed for haproxy.
  function RetargetDst(site: Site, r: Rule): Option<string> {
    var grp := if r.dstList == None && r.portList.Some? && r.portList.value in site.portGroupDestinations
               then Some(site.portGroupDestinations[r.portList.value]) else r.dstList;
    match grp
    case None => None
    case Some(g) =>
      if g in site.haproxyGroups || (g !in site.containerGroups && g !in site.containerGroups.Values) then None
      else Some(if g in site.containerGroups then site.containerGroups[g] else g)
  }

  predicate IsDnsRule(site: Site, r: Rule) {
    r.portSpec.Some? && r.portSpec.value in site.dnsSpecs
  }

  // Indexing the outside zone's VLAN fails when there is none.
  predicate DnsAborts(site: Site, vlans: map<string, Vlan>, zone: string) {
    zone == site.outsideZone && zone !in vlans
  }

  function DnsEffect(site: Site, cfg: Config, zone: string, r: Rule): Option<seq<Effect>> {
    match Variants(site, cfg.portLists, r)
    case None => None
    case Some(v) => if DnsAborts(site, cfg.vlans, zone) && v != [] then None else Some([Dns(zone, v)])
  }

  function JoinEffect(site: Site, cfg: Config, pair: Pair, r: Rule): Option<seq<Effect>> {
    match Variants(site, cfg.portLists, r)
    case None => None
    case Some(v) => Some([Join(pair, None, v)])
  }

  // One rule of a ruleset to or from an unported zone.
  function ContainerRule(site: Site, cfg: Config, name: string, pair: Pair, r: Rule): Option<seq<Effect>> {
    if r.action != Some("accept") then Some([])
    else if pair.dst in site.unported then
      if IsDnsRule(site, r) then DnsEffect(site, cfg, pair.src, r)
      else
        match RetargetDst(site, r)
        case None => Some([])
        case Some(l) =>
          if pair.src == site.successor then Some([])
          else JoinEffect(site, cfg, Pair(pair.src, site.successor), r.(dstList := Some(l)))
    else if name !in site.sourceRulesets || pair.dst == site.successor then Some([])
    else JoinEffect(site, cfg, Pair(site.successor, pair.dst), r.(srcList := Some(site.sourceRulesets[name])))
  }

  function Append<T>(a: Option<seq<T>>, b: Option<seq<T>>): Option<seq<T>> {
    if a.Some? && b.Some? then Some(a.value + b.value) else None
  }

  // With `rest` still to come, what was done since `start` adds up to `all`.
  ghost predicate Ahead(start: seq<Effect>, done: seq<Effect>, all: Option<seq<Effect>>, rest: Option<seq<Effect>>) {
    (all.Some? <==> rest.Some?) && (all.Some? ==> start + all.value == done + rest.value)
  }

  lemma AheadStart(start: seq<Effect>, all: Option<seq<Effect>>)
    ensures Ahead(start, start, all, all)
  {}

  lemma AheadStep(start: seq<Effect>, done: seq<Effect>, all: Option<seq<Effect>>, one: Option<seq<Effect>>, rest: Option<seq<Effect>>)
    requires Ahead(start, done, all, Append(one, rest))
    ensures one.None? ==> all.None?
    ensures one.Some? ==> Ahead(start, done + one.value, all, rest)
  {}

  lemma AheadEnd(start: seq<Effect>, done: seq<Effect>, all: Option<seq<Effect>>)
    requires Ahead(start, done, all, Some([]))
    ensures all.Some? && done == start + all.value
  {}

  function ContainerRules(site: Site, cfg: Config, name: string, pair: Pair, rules: map<nat, Rule>, nums: seq<nat>): Option<seq<Effect>>
    requires forall n :: n in nums ==> n in rules
    decreases nums
  {
    if nums == [] then Some([])
    else Append(ContainerRule(site, cfg, name, pair, rules[nums[0]]),
                ContainerRules(site, cfg, name, pair, rules, nums[1..]))
  }

  lemma ContainerRulesFrom(site: Site, cfg: Config, name: string, pair: Pair, rules: map<nat, Rule>, nums: seq<nat>, i: nat)
    requires i < |nums| && forall n :: n in nums ==> n in rules
    ensures nums[i] in rules
    ensures ContainerRules(site, cfg, name, pair, rules, nums[i..]) ==
            Append(ContainerRule(site, cfg, name, pair, rules[nums[i]]), ContainerRules(site, cfg, name, pair, rules, nums[i + 1..]))
  {
    assert nums[i] in nums && nums[i..][1..] == nums[i + 1..];
  }

  lemma ContainerRulesNone(site: Site, cfg: Config, name: string, pair: Pair, rules: map<nat, Rule>, nums: seq<nat>)
    requires forall n :: n in nums ==> n in rules
    ensures nums[0..] == nums && ContainerRules(site, cfg, name, pair, rules, nums[|nums|..]) == Some([])
  {}

  // The rules of an ordinary pair: only accept rules are translated.
  function NormalRules(site: Site, cfg: Config, rules: map<nat, Rule>, nums: seq<nat>): Option<seq<Emitted>>
    requires forall n :: n in nums ==> n in rules
    decreases nums
  {
    if nums == [] then Some([])
    else if rules[nums[0]].action != Some("accept") then None
    else Append(Variants(site, cfg.portLists, rules[nums[0]]), NormalRules(site, cfg, rules, nums[1..]))
  }

  function RulesetEffects(site: Site, cfg: Config, name: string): Option<seq<Effect>>
    requires name in cfg.rulesets
  {
    if name !in cfg.pairs then Some([])
    else
      var pair, rs := cfg.pairs[name], cfg.rulesets[name];
      var nums := Numbers(rs.rules.Keys);
      if pair.dst in site.unported then
        Append(if rs.Default() == "accept" then DnsEffect(site, cfg, pair.src, DNS_RULE) else Some([]),
               ContainerRules(site, cfg, name, pair, rs.rules, nums))
      else if pair.src in site.unported then
        ContainerRules(site, cfg, name, pair, rs.rules, nums)
      else
        match NormalRules(site, cfg, rs.rules, nums)
        case None => None
        case Some(rules) =>
          if rules == [] && rs.Default() != "accept" then Some([])
          else Some([Join(pair, Some(rs.Default()), rules)])
  }

  function RulesetsEffects(site: Site, cfg: Config, names: seq<string>): Option<seq<Effect>>
    requires forall n :: n in names ==> n in cfg.rulesets
  {
    if names == [] then Some([])
    else Append(RulesetEffects(site, cfg, names[0]), RulesetsEffects(site, cfg, names[1..]))
  }

  function NativeEffects(site: Site, zones: seq<string>): seq<Effect> {
    if zones == [] then []
    else [Join(Pair(zones[0], site.nativeZone), Some("accept"), [])] + NativeEffects(site, zones[1..])
  }

  function TableRules(site: Site, cfg: Config, pair: Pair, rules: seq<Rule>): Option<seq<Effect>> {
    if rules == [] then Some([])
    else Append(JoinEffect(site, cfg, pair, rules[0]), TableRules(site, cfg, pair, rules[1..]))
  }

  function TableEffects(site: Site, cfg: Config, tables: seq<(Pair, seq<Rule>)>): Option<seq<Effect>> {
    if tables == [] then Some([])
    else
      Append(Append(Some([Join(tables[0].0, None, [])]), TableRules(site, cfg, tables[0].0, tables[0].1)),
             TableEffects(site, cfg, tables[1..]))
  }

  function AllEffects(site: Site, cfg: Config, names: seq<string>): Option<seq<Effect>>
    requires forall n :: n in names ==> n in cfg.rulesets
  {
    Append(Append(RulesetsEffects(site, cfg, names),
                  Append(Some(NativeEffects(site, site.nativeAccess)), DnsEffect(site, cfg, site.nativeZone, DNS_RULE))),
           TableEffects(site, cfg, site.extra))
  }

  // ---- the maps a sequence of effects leaves behind

  datatype Key = Key(number: nat, src: string, dst: string)

  datatype Policy = Policy(pair: Pair, rules: seq<Emitted>, acceptByDefault: bool)

  function Touched(log: seq<Effect>, q: Pair): bool {
    exists e | e in log :: e.Join? && e.pair == q
  }

  function RulesOf(log: seq<Effect>, q: Pair): seq<Emitted> {
    if log == [] then []
    else
      var last := log[|log| - 1];
      RulesOf(log[..|log| - 1], q) + (if last.Join? && last.pair == q then last.rules else [])
  }

  function AcceptsByDefault(log: seq<Effect>, q: Pair): bool {
    exists e | e in log :: e.Join? && e.pair == q && e.native == Some("accept")
  }

  // Where a DNS input rule listens: a zone's interface list, or one VLAN interface.
  datatype Listen = ZoneList(zone: string) | VlanInterface(id: nat)

  datatype InputKey = InputKey(number: nat, zone: string, protocol: string)

  datatype InputRule = InputRule(listen: Listen, protocol: Option<string>, ports: seq<string>)

  datatype Inputs = Inputs(number: nat, rules: map<InputKey, InputRule>)

  function AddDns(site: Site, vlans: map<string, Vlan>, zone: string, variants: seq<Emitted>, before: Inputs): Inputs {
    if variants == [] then before
    else
      var done := AddDns(site, vlans, zone, variants[..|variants| - 1], before);
      var v, number := variants[|variants| - 1], done.number + 10;
      if zone == site.outsideZone && (zone !in vlans || vlans[zone].enabled == Some(false)) then Inputs(number, done.rules)
      else
        var listen := if zone == site.outsideZone then VlanInterface(vlans[zone].id) else ZoneList(zone);
        Inputs(number, done.rules[InputKey(number, zone, v.protocol.GetOr("any")) := InputRule(listen, v.protocol, v.ports)])
  }

  function InputsOf(site: Site, vlans: map<string, Vlan>, log: seq<Effect>): Inputs {
    if log == [] then Inputs(0, map[])
    else
      var before := InputsOf(site, vlans, log[..|log| - 1]);
      match log[|log| - 1]
      case Dns(zone, variants) => AddDns(site, vlans, zone, variants, before)
      case Join(_, _, _) => before
  }

  // The maps are exactly what the effects so far amount to: one policy per
  // touched pair, holding every rule sent to the pair, in order.
  ghost predicate Mirrors(policies: map<Key, Policy>, pairKeys: map<Pair, Key>, sequence: nat, log: seq<Effect>) {
    && (forall q :: q in pairKeys <==> Touched(log, q))
    && (forall q :: q in pairKeys ==>
          && pairKeys[q] in policies
          && policies[pairKeys[q]] == Policy(q, RulesOf(log, q), AcceptsByDefault(log, q))
          && pairKeys[q].src == q.src && pairKeys[q].dst == q.dst)
    && (forall k :: k in policies ==>
          && k.number <= sequence
          && policies[k].pair in pairKeys && pairKeys[policies[k].pair] == k)
  }

  function Opened(p: Policy, e: Effect): Policy
    requires e.Join?
  {
    p.(rules := p.rules + e.rules, acceptByDefault := p.acceptByDefault || e.native == Some("accept"))
  }

  lemma MirrorsNew(policies: map<Key, Policy>, pairKeys: map<Pair, Key>, sequence: nat, log: seq<Effect>, e: Effect)
    requires Mirrors(policies, pairKeys, sequence, log) && e.Join? && e.pair !in pairKeys
    ensures var key := Key(sequence + 10, e.pair.src, e.pair.dst);
            Mirrors(policies[key := Opened(Policy(e.pair, [], false), e)], pairKeys[e.pair := key], sequence + 10, log + [e])
  {
    hide Touched, RulesOf, AcceptsByDefault, InputsOf;
    assert RulesOf(log, e.pair) == [] && !AcceptsByDefault(log, e.pair) by {
      NewPair(log, e.pair);
    }
    Appended(log, e);
  }

  lemma MirrorsKnown(policies: map<Key, Policy>, pairKeys: map<Pair, Key>, sequence: nat, log: seq<Effect>, e: Effect)
    requires Mirrors(policies, pairKeys, sequence, log) && e.Join? && e.pair in pairKeys
    ensures var key := pairKeys[e.pair];
            key in policies && Mirrors(policies[key := Opened(policies[key], e)], pairKeys, sequence, log + [e])
  {
    hide Touched, RulesOf, AcceptsByDefault, InputsOf;
    Appended(log, e);
  }

  class ZonePolicyBuilder {
    const site: Site
    const cfg: Config
    var policies: map<Key, Policy>
    var pairKeys: map<Pair, Key>
    var sequence: nat
    var inputs: Inputs
    ghost var log: seq<Effect>

    ghost predicate Reflects()
      reads this
    {
      && Mirrors(policies, pairKeys, sequence, log)
      && inputs == InputsOf(site, cfg.vlans, log)
    }

    constructor (site: Site, cfg: Config)
      ensures this.site == site && this.cfg == cfg && log == [] && Reflects()
    {
      this.site, this.cfg := site, cfg;
      policies, pairKeys, sequence := map[], map[], 0;
      inputs, log := Inputs(0, map[]), [];
    }

    // Find or create the policy of a directed pair; only the ruleset bound to
    // the pair may open its default.
    method GetPair(pair: Pair, native: Option<string>) returns (key: Key)
      requires pair in pairKeys ==> pairKeys[pair] in policies
      modifies `policies, `pairKeys, `sequence
      ensures var e := Join(pair, native, []);
              if pair in old(pairKeys) then
                && key == old(pairKeys)[pair] && pairKeys == old(pairKeys) && sequence == old(sequence)
                && policies == old(policies)[key := Opened(old(policies)[key], e)]
              else
                && sequence == old(sequence) + 10 && key == Key(sequence, pair.src, pair.dst)
                && pairKeys == old(pairKeys)[pair := key]
                && policies == old(policies)[key := Opened(Policy(pair, [], false), e)]
    {
      if pair in pairKeys {
        key := pairKeys[pair];
      } else {
        sequence := sequence + 10;
        key := Key(sequence, pair.src, pair.dst);
        pairKeys := pairKeys[pair := key];
        policies := policies[key := Policy(pair, [], false)];
      }
      if native == Some("accept") {
        policies := policies[key := policies[key].(acceptByDefault := true)];
      }
      assert policies[key].rules + [] == policies[key].rules;
    }

    // `get_pair`, then the rules the caller appends to the policy it got.
    method JoinPair(pair: Pair, native: Option<string>, rules: seq<Emitted>)
      requires Reflects()
      modifies this
      ensures Reflects() && log == old(log) + [Join(pair, native, rules)]
    {
      hide Mirrors, InputsOf;
      ghost var e := Join(pair, native, rules);
      Appended(log, e);
      MirrorsKeys(policies, pairKeys, sequence, log);
      if pair in pairKeys {
        MirrorsKnown(policies, pairKeys, sequence, log, e);
      } else {
        MirrorsNew(policies, pairKeys, sequence, log, e);
      }
      var key := GetPair(pair, native);
      ghost var found := if pair in old(pairKeys) then old(policies)[key] else Policy(pair, [], false);
      assert found.rules + [] + rules == found.rules + rules;
      policies := policies[key := policies[key].(rules := policies[key].rules + rules)];
      assert policies == old(policies)[key := Opened(found, e)];
      log := log + [e];
    }

    // `resolve_ports`
    method ResolvePorts(spec: string) returns (out: seq<string>)
      ensures out == Resolved(site, Tokens(spec))
    {
      hide Trim, Split, Service;
      var parts := Split(Trim(Trim(Trim(spec, WHITESPACE), {'\''}), {'"'}), ',');
      out := [];
      for i := 0 to |parts|
        invariant Resolved(site, NonEmpty(parts)) == out + Resolved(site, NonEmpty(parts[i..]))
      {
        var token := Trim(parts[i], WHITESPACE);
        assert parts[i..][1..] == parts[i + 1..];
        if token != "" {
          ResolvedCons(site, token, NonEmpty(parts[i + 1..]));
          out := out + [Service(site, token)];
        }
      }
    }

    // `emit_variants`
    method EmitVariants(r: Rule) returns (res: Option<seq<Emitted>>)
      ensures res == Variants(site, cfg.portLists, r)
    {
      hide PortChunks, KeptPortList, ExpandProtocol, VariantsFor;
      if r.unknown {
        return None;
      }
      var keptList, chunks := ChoosePorts(r);
      var protos, out := ExpandProtocol(site, r.protocol), [];
      for i := 0 to |protos|
        invariant AllVariants(cfg.portLists, r, protos, chunks) == out + AllVariants(cfg.portLists, r, protos[i..], chunks)
      {
        var variants := EmitChunks(r, protos[i], keptList, chunks);
        assert protos[i..][1..] == protos[i + 1..];
        out := out + variants;
      }
      assert out + [] == out;
      res := Some(out);
    }

    // The port group to keep and the port lists to spread over the variants.
    method ChoosePorts(r: Rule) returns (keptList: Option<string>, chunks: seq<seq<string>>)
      ensures chunks == PortChunks(site, cfg.portLists, r) && keptList == KeptPortList(cfg.portLists, r)
    {
      hide ChunkPorts, Resolved, Tokens;
      keptList, chunks := None, [[]];
      if r.portList.Some? {
        var members := if r.portList.value in cfg.portLists then cfg.portLists[r.portList.value] else [];
        if |members| > MAX_DST_PORTS {
          chunks := ChunkPorts(members);
        } else {
          keptList := r.portList;
        }
      } else if r.portSpec.Some? {
        var ports := ResolvePorts(r.portSpec.value);
        chunks := ChunkPorts(ports);
      }
    }

    method EmitChunks(r: Rule, proto: Option<string>, keptList: Option<string>, chunks: seq<seq<string>>)
      returns (out: seq<Emitted>)
      requires keptList == KeptPortList(cfg.portLists, r)
      ensures out == VariantsFor(cfg.portLists, r, proto, chunks)
    {
      hide KeptPortList;
      out := [];
      for j := 0 to |chunks|
        invariant |out| == j && forall i :: 0 <= i < j ==> out[i] == Variant(cfg.portLists, r, proto, chunks[i])
      {
        var emittedProto := if proto == Some("") then None else proto;
        out := out + [Emitted(emittedProto, r.srcList, r.dstList, r.srcAddr, r.dstAddr, keptList, chunks[j])];
      }
    }

    // `add_dns_input`; false is the abort.
    method AddDnsInput(zone: string, r: Rule) returns (ok: bool)
      requires Reflects()
      modifies this
      ensures ok <==> DnsEffect(site, cfg, zone, r).Some?
      ensures ok ==> Reflects() && log == old(log) + DnsEffect(site, cfg, zone, r).value
    {
      hide Mirrors, InputsOf, Variants;
      var emitted := EmitVariants(r);
      if emitted == None {
        return false;
      }
      var variants := emitted.value;
      for i := 0 to |variants|
        invariant i == 0 || !DnsAborts(site, cfg.vlans, zone)
        invariant inputs == AddDns(site, cfg.vlans, zone, variants[..i], old(inputs))
        invariant policies == old(policies) && pairKeys == old(pairKeys) && sequence == old(sequence) && log == old(log)
      {
        assert variants[..i + 1][..i] == variants[..i];
        var v, number := variants[i], inputs.number + 10;
        inputs := inputs.(number := number);
        if zone == site.outsideZone {
          if zone in cfg.vlans && cfg.vlans[zone].enabled == Some(false) {
            continue;
          }
          if zone !in cfg.vlans {
            return false;
          }
        }
        var listen := if zone == site.outsideZone then VlanInterface(cfg.vlans[zone].id) else ZoneList(zone);
        inputs := inputs.(rules := inputs.rules[InputKey(number, zone, v.protocol.GetOr("any")) :=
                                                InputRule(listen, v.protocol, v.ports)]);
      }
      assert variants[..|variants|] == variants;
      ghost var e := Dns(zone, variants);
      Appended(log, e);
      MirrorsDns(policies, pairKeys, sequence, log, e);
      log := log + [e];
      ok := true;
    }

    method JoinVariants(pair: Pair, r: Rule) returns (ok: bool)
      requires Reflects()
      modifies this
      ensures ok <==> JoinEffect(site, cfg, pair, r).Some?
      ensures ok ==> Reflects() && log == old(log) + JoinEffect(site, cfg, pair, r).value
    {
      var emitted := EmitVariants(r);
      if emitted == None {
        return false;
      }
      JoinPair(pair, None, emitted.value);
      ok := true;
    }

    method ConvertContainerRule(name: string, pair: Pair, r: Rule) returns (ok: bool)
      requires Reflects()
      modifies this
      ensures ok <==> ContainerRule(site, cfg, name, pair, r).Some?
      ensures ok ==> Reflects() && log == old(log) + ContainerRule(site, cfg, name, pair, r).value
    {
      hide Mirrors, InputsOf, Variants, JoinEffect, DnsEffect;
      ok := true;
      if r.action != Some("accept") {
        return;
      }
      if pair.dst in site.unported {
        if IsDnsRule(site, r) {
          ok := AddDnsInput(pair.src, r);
          return;
        }
        var dst := RetargetDst(site, r);
        if dst == None || pair.src == site.successor {
          return;
        }
        ok := JoinVariants(Pair(pair.src, site.successor), r.(dstList := dst));
      } else {
        if name !in site.sourceRulesets || pair.dst == site.successor {
          return;
        }
        ok := JoinVariants(Pair(site.successor, pair.dst), r.(srcList := Some(site.sourceRulesets[name])));
      }
    }

    method ConvertContainerRules(name: string, pair: Pair, rules: map<nat, Rule>) returns (ok: bool)
      requires Reflects()
      modifies this
      ensures ok <==> ContainerRules(site, cfg, name, pair, rules, Numbers(rules.Keys)).Some?
      ensures ok ==> Reflects() && log == old(log) + ContainerRules(site, cfg, name, pair, rules, Numbers(rules.Keys)).value
    {
      hide Mirrors, InputsOf, Variants, ContainerRule;
      var nums := Numbers(rules.Keys);
      ContainerRulesNone(site, cfg, name, pair, rules, nums);
      hide ContainerRules, Append, Ahead;
      ghost var all := ContainerRules(site, cfg, name, pair, rules, nums);
      AheadStart(log, all);
      for i := 0 to |nums|
        invariant Reflects() && Ahead(old(log), log, all, ContainerRules(site, cfg, name, pair, rules, nums[i..]))
      {
        ContainerRulesFrom(site, cfg, name, pair, rules, nums, i);
        AheadStep(old(log), log, all, ContainerRule(site, cfg, name, pair, rules[nums[i]]),
                  ContainerRules(site, cfg, name, pair, rules, nums[i + 1..]));
        ok := ConvertContainerRule(name, pair, rules[nums[i]]);
        if !ok {
          return;
        }
      }
      AheadEnd(old(log), log, all);
      ok := true;
    }

    method ConvertNormalRules(rules: map<nat, Rule>) returns (out: Option<seq<Emitted>>)
      ensures out == NormalRules(site, cfg, rules, Numbers(rules.Keys))
    {
      hide Variants;
      var nums, done := Numbers(rules.Keys), [];
      for i := 0 to |nums|
        invariant NormalRules(site, cfg, rules, nums).Some? <==> NormalRules(site, cfg, rules, nums[i..]).Some?
        invariant NormalRules(site, cfg, rules, nums).Some? ==>
                    NormalRules(site, cfg, rules, nums).value == done + NormalRules(site, cfg, rules, nums[i..]).value
      {
        assert nums[i..][1..] == nums[i + 1..];
        assert nums[i] in nums;
        if rules[nums[i]].action != Some("accept") {
          return None;
        }
        var emitted := EmitVariants(rules[nums[i]]);
        if emitted == None {
          return None;
        }
        done := done + emitted.value;
      }
      assert done + [] == done;
      out := Some(done);
    }

    method ConvertRuleset(name: string) returns (ok: bool)
      requires Reflects() && name in cfg.rulesets
      modifies this
      ensures ok <==> RulesetEffects(site, cfg, name).Some?
      ensures ok ==> Reflects() && log == old(log) + RulesetEffects(site, cfg, name).value
    {
      hide Mirrors, InputsOf, Variants, ContainerRules, NormalRules, DnsEffect;
      ok := true;
      if name !in cfg.pairs {
        return;
      }
      var pair, rs := cfg.pairs[name], cfg.rulesets[name];
      if pair.dst in site.unported {
        if rs.Default() == "accept" {
          ok := AddDnsInput(pair.src, DNS_RULE);
          if !ok {
            return;
          }
        }
        ok := ConvertContainerRules(name, pair, rs.rules);
      } else if pair.src in site.unported {
        ok := ConvertContainerRules(name, pair, rs.rules);
      } else {
        var rules := ConvertNormalRules(rs.rules);
        if rules == None {
          return false;
        }
        if rules.value == [] && rs.Default() != "accept" {
          return;
        }
        JoinPair(pair, Some(rs.Default()), rules.value);
      }
    }

    method ConvertTable(pair: Pair, rules: seq<Rule>) returns (ok: bool)
      requires Reflects()
      modifies this
      ensures ok <==> TableRules(site, cfg, pair, rules).Some?
      ensures ok ==> Reflects() && log == old(log) + [Join(pair, None, [])] + TableRules(site, cfg, pair, rules).value
    {
      hide Mirrors, InputsOf, Variants, JoinEffect;
      JoinPair(pair, None, []);
      ghost var start := log;
      for i := 0 to |rules|
        invariant Reflects()
        invariant TableRules(site, cfg, pair, rules).Some? <==> TableRules(site, cfg, pair, rules[i..]).Some?
        invariant TableRules(site, cfg, pair, rules).Some? ==>
                    start + TableRules(site, cfg, pair, rules).value == log + TableRules(site, cfg, pair, rules[i..]).value
      {
        assert rules[i..][1..] == rules[i + 1..];
        ok := JoinVariants(pair, rules[i]);
        if !ok {
          return;
        }
      }
      ok := true;
    }

    method ConvertRulesets(names: seq<string>) returns (ok: bool)
      requires Reflects()
      requires forall n :: n in names ==> n in cfg.rulesets
      modifies this
      ensures ok <==> RulesetsEffects(site, cfg, names).Some?
      ensures ok ==> Reflects() && log == old(log) + RulesetsEffects(site, cfg, names).value
    {
      hide Mirrors, InputsOf, Variants, RulesetEffects;
      for i := 0 to |names|
        invariant Reflects()
        invariant RulesetsEffects(site, cfg, names).Some? <==> RulesetsEffects(site, cfg, names[i..]).Some?
        invariant RulesetsEffects(site, cfg, names).Some? ==>
                    old(log) + RulesetsEffects(site, cfg, names).value == log + RulesetsEffects(site, cfg, names[i..]).value
      {
        assert names[i..][1..] == names[i + 1..];
        assert names[i] in names;
        ok := ConvertRuleset(names[i]);
        if !ok {
          return;
        }
      }
      ok := true;
    }

    method AddNativeAccess()
      requires Reflects()
      modifies this
      ensures Reflects() && log == old(log) + NativeEffects(site, site.nativeAccess)
    {
      hide Mirrors, InputsOf;
      for i := 0 to |site.nativeAccess|
        invariant Reflects()
        invariant old(log) + NativeEffects(site, site.nativeAccess) == log + NativeEffects(site, site.nativeAccess[i..])
      {
        assert site.nativeAccess[i..][1..] == site.nativeAccess[i + 1..];
        JoinPair(Pair(site.nativeAccess[i], site.nativeZone), Some("accept"), []);
      }
      assert log + [] == log;
    }

    method ConvertTables() returns (ok: bool)
      requires Reflects()
      modifies this
      ensures ok <==> TableEffects(site, cfg, site.extra).Some?
      ensures ok ==> Reflects() && log == old(log) + TableEffects(site, cfg, site.extra).value
    {
      hide Mirrors, InputsOf, Variants, TableRules;
      for i := 0 to |site.extra|
        invariant Reflects()
        invariant TableEffects(site, cfg, site.extra).Some? <==> TableEffects(site, cfg, site.extra[i..]).Some?
        invariant TableEffects(site, cfg, site.extra).Some? ==>
                    old(log) + TableEffects(site, cfg, site.extra).value == log + TableEffects(site, cfg, site.extra[i..]).value
      {
        assert site.extra[i..][1..] == site.extra[i + 1..];
        ok := ConvertTable(site.extra[i].0, site.extra[i].1);
        if !ok {
          return;
        }
      }
      ok := true;
    }

    // `build_zone_policies`, the rulesets visited in any order.
    method Build(names: seq<string>) returns (ok: bool)
      requires Reflects() && log == []
      requires forall n :: n in names ==> n in cfg.rulesets
      modifies this
      ensures ok <==> AllEffects(site, cfg, names).Some?
      ensures ok ==> Reflects() && log == AllEffects(site, cfg, names).value
    {
      hide Mirrors, InputsOf, RulesetsEffects, DnsEffect, TableEffects, NativeEffects;
      ok := ConvertRulesets(names);
      if !ok {
        return;
      }
      AddNativeAccess();
      ok := AddDnsInput(site.nativeZone, DNS_RULE);
      if !ok {
        return;
      }
      ok := ConvertTables();
    }
  }

  lemma ResolvedCons(site: Site, token: string, rest: seq<string>)
    ensures Resolved(site, [token] + rest) == [Service(site, token)] + Resolved(site, rest)
  {}

  lemma MirrorsDns(policies: map<Key, Policy>, pairKeys: map<Pair, Key>, sequence: nat, log: seq<Effect>, e: Effect)
    requires Mirrors(policies, pairKeys, sequence, log) && e.Dns?
    ensures Mirrors(policies, pairKeys, sequence, log + [e])
  {
    hide Touched, RulesOf, AcceptsByDefault, InputsOf;
    Appended(log, e);
  }

  lemma MirrorsKeys(policies: map<Key, Policy>, pairKeys: map<Pair, Key>, sequence: nat, log: seq<Effect>)
    requires Mirrors(policies, pairKeys, sequence, log)
    ensures forall q :: q in pairKeys ==> pairKeys[q] in policies
  {}

  lemma {:induction false} NewPair(log: seq<Effect>, q: Pair)
    requires !Touched(log, q)
    ensures RulesOf(log, q) == [] && !AcceptsByDefault(log, q)
  {
    if log != [] {
      NewPair(log[..|log| - 1], q);
    }
  }

  lemma Appended(log: seq<Effect>, e: Effect)
    ensures forall q :: Touched(log + [e], q) <==> Touched(log, q) || (e.Join? && e.pair == q)
    ensures forall q :: RulesOf(log + [e], q) == RulesOf(log, q) + (if e.Join? && e.pair == q then e.rules else [])
    ensures forall q :: AcceptsByDefault(log + [e], q) <==>
                        AcceptsByDefault(log, q) || (e.Join? && e.pair == q && e.native == Some("accept"))
    ensures forall site, vlans :: InputsOf(site, vlans, log + [e]) ==
                                  if e.Dns? then AddDns(site, vlans, e.zone, e.variants, InputsOf(site, vlans, log))
                                  else InputsOf(site, vlans, log)
  {
    assert (log + [e])[..|log|] == log;
  }
}
