// What the generated firewall does to a packet: the flat forward chain the
// Terraform module lays out, and its exact relation to the VyOS rulesets.

module FirewallMeaning {
  import opened FirewallBuilder
  import opened FirewallModel
  import opened Options

  // ---- the forward chain: per policy its accepts, then its default; then a drop

  datatype ChainRule = Accept(pair: Pair, rule: Emitted) | Default(pair: Pair, accept: bool)

  function Accepts(pair: Pair, rules: seq<Emitted>): seq<ChainRule> {
    if rules == [] then [] else [Accept(pair, rules[0])] + Accepts(pair, rules[1..])
  }

  // `listing` is the order in which a policy's rules end up.
  function Chain(policies: map<Key, Policy>, keys: seq<Key>, listing: map<Key, seq<Emitted>>): seq<ChainRule>
    requires forall k :: k in keys ==> k in policies && k in listing
  {
    if keys == [] then []
    else
      var pol := policies[keys[0]];
      Accepts(pol.pair, listing[keys[0]]) + [Default(pol.pair, pol.acceptByDefault)]
      + Chain(policies, keys[1..], listing)
  }

  // The first rule that matches a new connection decides; the chain ends in a drop.
  ghost predicate Forwards(env: Env, chain: seq<ChainRule>, p: Packet) {
    chain != [] &&
    match chain[0]
    case Accept(pair, rule) => (pair == Pair(p.src, p.dst) && RosMatch(env, rule, p)) || Forwards(env, chain[1..], p)
    case Default(pair, accept) => if pair == Pair(p.src, p.dst) then accept else Forwards(env, chain[1..], p)
  }

  lemma {:induction false} ForwardsAccepts(env: Env, pair: Pair, rules: seq<Emitted>, rest: seq<ChainRule>, p: Packet)
    ensures Forwards(env, Accepts(pair, rules) + rest, p) <==>
            (pair == Pair(p.src, p.dst) && AnyMatch(env, rules, p)) || Forwards(env, rest, p)
  {
    if rules == [] {
      assert Accepts(pair, rules) + rest == rest;
    } else {
      ForwardsAccepts(env, pair, rules[1..], rest, p);
      assert (Accepts(pair, rules) + rest)[1..] == Accepts(pair, rules[1..]) + rest;
      assert rules == [rules[0]] + rules[1..];
      assert forall e :: e in rules <==> e == rules[0] || e in rules[1..];
    }
  }

  lemma AnyMatchSame(env: Env, a: seq<Emitted>, b: seq<Emitted>, p: Packet)
    requires forall e :: e in a <==> e in b
    ensures AnyMatch(env, a, p) <==> AnyMatch(env, b, p)
  {}

  lemma ForwardsDefault(env: Env, pair: Pair, accept: bool, rest: seq<ChainRule>, p: Packet)
    ensures Forwards(env, [Default(pair, accept)] + rest, p) <==>
            if pair == Pair(p.src, p.dst) then accept else Forwards(env, rest, p)
  {
    assert ([Default(pair, accept)] + rest)[1..] == rest;
  }

  ghost predicate PolicyForwards(env: Env, pol: Policy, p: Packet) {
    pol.pair == Pair(p.src, p.dst) && (AnyMatch(env, pol.rules, p) || pol.acceptByDefault)
  }

  ghost predicate Lists(policies: map<Key, Policy>, keys: seq<Key>, listing: map<Key, seq<Emitted>>) {
    && (forall k :: k in keys ==> k in policies && k in listing)
    && (forall k, e :: k in keys ==> (e in listing[k] <==> e in policies[k].rules))
    && (forall k, l :: k in keys && l in keys && policies[k].pair == policies[l].pair ==> k == l)
  }

  // In whatever order the policies and each policy's rules are laid out, the
  // chain gives every packet the verdict of its own pair's policy.
  lemma {:induction false} ChainVerdict(env: Env, policies: map<Key, Policy>, keys: seq<Key>, listing: map<Key, seq<Emitted>>, p: Packet)
    requires Lists(policies, keys, listing)
    ensures Forwards(env, Chain(policies, keys, listing), p) <==>
            exists k :: k in keys && PolicyForwards(env, policies[k], p)
  {
    hide AnyMatch, Forwards, Accepts;
    if keys == [] {
      EmptyChain(env, p);
    } else {
      var k, pol := keys[0], policies[keys[0]];
      var tail := Chain(policies, keys[1..], listing);
      var rest := [Default(pol.pair, pol.acceptByDefault)] + tail;
      assert Chain(policies, keys, listing) == Accepts(pol.pair, listing[k]) + rest;
      ForwardsAccepts(env, pol.pair, listing[k], rest, p);
      ForwardsDefault(env, pol.pair, pol.acceptByDefault, tail, p);
      AnyMatchSame(env, listing[k], pol.rules, p);
      assert forall l :: l in keys <==> l == k || l in keys[1..];
      ChainVerdict(env, policies, keys[1..], listing, p);
    }
  }

  lemma EmptyChain(env: Env, p: Packet)
    ensures !Forwards(env, [], p)
  {}

  // ---- effects that let a packet through

  ghost predicate Grants(env: Env, log: seq<Effect>, p: Packet) {
    exists e :: e in log && Granted(env, e, p)
  }

  ghost predicate Granted(env: Env, e: Effect, p: Packet) {
    e.Join? && e.pair == Pair(p.src, p.dst) && (e.native == Some("accept") || AnyMatch(env, e.rules, p))
  }

  lemma GrantsAppend(env: Env, a: seq<Effect>, b: seq<Effect>, p: Packet)
    ensures Grants(env, a + b, p) <==> Grants(env, a, p) || Grants(env, b, p)
  {
    assert forall e :: e in a + b <==> e in a || e in b;
  }

  lemma AnyMatchAppend(env: Env, a: seq<Emitted>, b: seq<Emitted>, p: Packet)
    ensures AnyMatch(env, a + b, p) <==> AnyMatch(env, a, p) || AnyMatch(env, b, p)
  {
    assert forall e :: e in a + b <==> e in a || e in b;
  }

  lemma {:induction false} PolicyGrants(env: Env, log: seq<Effect>, p: Packet)
    ensures Grants(env, log, p) <==>
            Touched(log, Pair(p.src, p.dst)) &&
            (AnyMatch(env, RulesOf(log, Pair(p.src, p.dst)), p) || AcceptsByDefault(log, Pair(p.src, p.dst)))
  {
    if log != [] {
      var init, last := log[..|log| - 1], log[|log| - 1];
      var q := Pair(p.src, p.dst);
      assert log == init + [last];
      PolicyGrants(env, init, p);
      GrantsAppend(env, init, [last], p);
      Appended(init, last);
      AnyMatchAppend(env, RulesOf(init, q), if last.Join? && last.pair == q then last.rules else [], p);
      if !Touched(init, q) {
        NewPair(init, q);
      }
      assert Grants(env, [last], p) <==> Granted(env, last, p) by {
        assert last in [last];
      }
    }
  }

  // ---- justifications

  ghost predicate Ordinary(site: Site, q: Pair) {
    q.src !in site.unported && q.dst !in site.unported
  }

  // The ruleset bound to the packet's own pair accepts it.
  ghost predicate ByRuleset(site: Site, cfg: Config, env: Env, name: string, p: Packet) {
    && name in cfg.rulesets && name in cfg.pairs
    && cfg.pairs[name] == Pair(p.src, p.dst) && Ordinary(site, cfg.pairs[name])
    && VyosVerdict(site, env, cfg.rulesets[name], p) == "accept"
  }

  // What a rule towards the containers was about: its destination list, or the
  // group its port list stands for when it names none.
  ghost predicate About(site: Site, r: Rule, group: string) {
    || r.dstList == Some(group)
    || (&& r.dstList == None && r.portList.Some? && r.portList.value in site.portGroupDestinations
        && site.portGroupDestinations[r.portList.value] == group)
  }

  // The list that replaces it: a container's own under its new name. What was
  // about haproxy, or about nothing known, has none.
  ghost predicate NewHome(site: Site, r: Rule, list: string) {
    exists group :: About(site, r, group) && HomeOf(site, group, list)
  }

  ghost predicate HomeOf(site: Site, group: string, list: string) {
    && group !in site.haproxyGroups
    && (if group in site.containerGroups then list == site.containerGroups[group]
        else group == list && exists g :: g in site.containerGroups && site.containerGroups[g] == group)
  }

  // An accept rule towards a container zone, but for those moved to the router as
  // DNS, with its destination list replaced by the new home's, between the
  // client's zone and the containers' new zone.
  ghost predicate ToContainer(site: Site, cfg: Config, env: Env, pair: Pair, r: Rule, p: Packet) {
    && pair.dst in site.unported && r.action == Some("accept") && !(r.portSpec.Some? && r.portSpec.value in site.dnsSpecs)
    && pair.src == p.src && p.src != site.successor && p.dst == site.successor
    && exists list :: NewHome(site, r, list) && VyosMatch(site, env, r.(dstList := Some(list)), p)
  }

  lemma RetargetIsNewHome(site: Site, r: Rule, list: string)
    ensures RetargetDst(site, r) == Some(list) <==> NewHome(site, r, list)
  {
    if NewHome(site, r, list) {
      var group :| About(site, r, group) && HomeOf(site, group, list);
    }
    if RetargetDst(site, r) == Some(list) {
      var group := if r.dstList.Some? then r.dstList.value else site.portGroupDestinations[r.portList.value];
      assert About(site, r, group) && HomeOf(site, group, list);
    }
  }

  // An accept rule from a container zone, with its source narrowed to the container's list.
  ghost predicate FromContainer(site: Site, cfg: Config, env: Env, name: string, pair: Pair, r: Rule, p: Packet) {
    && pair.dst !in site.unported && pair.src in site.unported && r.action == Some("accept")
    && name in site.sourceRulesets
    && pair.dst == p.dst && p.dst != site.successor && p.src == site.successor
    && VyosMatch(site, env, r.(srcList := Some(site.sourceRulesets[name])), p)
  }

  ghost predicate ByContainer(site: Site, cfg: Config, env: Env, name: string, p: Packet) {
    && name in cfg.rulesets && name in cfg.pairs
    && exists n :: n in cfg.rulesets[name].rules &&
         (|| ToContainer(site, cfg, env, cfg.pairs[name], cfg.rulesets[name].rules[n], p)
          || FromContainer(site, cfg, env, name, cfg.pairs[name], cfg.rulesets[name].rules[n], p))
  }

  ghost predicate ByTable(site: Site, env: Env, tables: seq<(Pair, seq<Rule>)>, p: Packet) {
    exists i, r :: 0 <= i < |tables| && r in tables[i].1 && tables[i].0 == Pair(p.src, p.dst) && VyosMatch(site, env, r, p)
  }

  ghost predicate Justified(site: Site, cfg: Config, env: Env, p: Packet) {
    || (exists name :: ByRuleset(site, cfg, env, name, p))
    || (exists name :: ByContainer(site, cfg, env, name, p))
    || (p.src in site.nativeAccess && p.dst == site.nativeZone)
    || ByTable(site, env, site.extra, p)
  }

  // Every rule's ports are in the form the generator translates.
  ghost predicate WellFormed(site: Site, cfg: Config, env: Env) {
    && ServiceTableRight(site, env) && env.portLists == cfg.portLists
    && (forall name, n :: name in cfg.rulesets && n in cfg.rulesets[name].rules ==>
          Translatable(site, env, cfg.rulesets[name].rules[n]))
    && (forall i, r :: 0 <= i < |site.extra| && r in site.extra[i].1 ==> Translatable(site, env, r))
  }

  // ---- each effect grants exactly what justifies it

  lemma JoinGrants(site: Site, cfg: Config, env: Env, pair: Pair, r: Rule, p: Packet)
    requires ServiceTableRight(site, env) && env.portLists == cfg.portLists && Translatable(site, env, r)
    requires JoinEffect(site, cfg, pair, r).Some?
    ensures Grants(env, JoinEffect(site, cfg, pair, r).value, p) <==>
            pair == Pair(p.src, p.dst) && VyosMatch(site, env, r, p)
  {
    VariantsMean(site, env, r, p);
    var e := JoinEffect(site, cfg, pair, r).value[0];
    assert JoinEffect(site, cfg, pair, r).value == [e];
    assert e in [e] && (Granted(env, e, p) <==> Grants(env, [e], p));
  }

  lemma ContainerRuleGrants(site: Site, cfg: Config, env: Env, name: string, pair: Pair, r: Rule, p: Packet)
    requires ServiceTableRight(site, env) && env.portLists == cfg.portLists && Translatable(site, env, r)
    requires !Ordinary(site, pair)
    requires ContainerRule(site, cfg, name, pair, r).Some?
    ensures Grants(env, ContainerRule(site, cfg, name, pair, r).value, p) <==>
            ToContainer(site, cfg, env, pair, r, p) || FromContainer(site, cfg, env, name, pair, r, p)
  {
    hide VyosMatch, ServiceTableRight, JoinEffect, Variants, NewHome, RetargetDst;
    if r.action == Some("accept") {
      if pair.dst in site.unported && !IsDnsRule(site, r) {
        forall list ensures NewHome(site, r, list) <==> RetargetDst(site, r) == Some(list) {
          RetargetIsNewHome(site, r, list);
        }
        var dst := RetargetDst(site, r);
        if dst.Some? && pair.src != site.successor {
          assert Translatable(site, env, r.(dstList := dst));
          JoinGrants(site, cfg, env, Pair(pair.src, site.successor), r.(dstList := dst), p);
        }
      } else if pair.dst !in site.unported && name in site.sourceRulesets && pair.dst != site.successor {
        var narrowed := r.(srcList := Some(site.sourceRulesets[name]));
        assert Translatable(site, env, narrowed);
        JoinGrants(site, cfg, env, Pair(site.successor, pair.dst), narrowed, p);
      }
    }
  }

  lemma {:induction false} ContainerRulesGrant(site: Site, cfg: Config, env: Env, name: string, pair: Pair,
                                               rules: map<nat, Rule>, nums: seq<nat>, p: Packet)
    requires ServiceTableRight(site, env) && env.portLists == cfg.portLists && !Ordinary(site, pair)
    requires forall n :: n in nums ==> n in rules && Translatable(site, env, rules[n])
    requires ContainerRules(site, cfg, name, pair, rules, nums).Some?
    ensures Grants(env, ContainerRules(site, cfg, name, pair, rules, nums).value, p) <==>
            exists n :: n in nums && (ToContainer(site, cfg, env, pair, rules[n], p) ||
                                      FromContainer(site, cfg, env, name, pair, rules[n], p))
    decreases nums
  {
    hide Translatable, ServiceTableRight, ToContainer, FromContainer, ContainerRule, Grants;
    if nums == [] {
      NothingGrants(env, p);
    } else {
      assert nums == [nums[0]] + nums[1..];
      ContainerRuleGrants(site, cfg, env, name, pair, rules[nums[0]], p);
      ContainerRulesGrant(site, cfg, env, name, pair, rules, nums[1..], p);
      GrantsAppend(env, ContainerRule(site, cfg, name, pair, rules[nums[0]]).value,
                   ContainerRules(site, cfg, name, pair, rules, nums[1..]).value, p);
    }
  }

  lemma NothingGrants(env: Env, p: Packet)
    ensures !Grants(env, [], p)
  {}

  lemma {:induction false} NormalRulesMatch(site: Site, cfg: Config, env: Env, rules: map<nat, Rule>, nums: seq<nat>, p: Packet)
    requires ServiceTableRight(site, env) && env.portLists == cfg.portLists
    requires forall n :: n in nums ==> n in rules && Translatable(site, env, rules[n])
    requires NormalRules(site, cfg, rules, nums).Some?
    ensures AnyMatch(env, NormalRules(site, cfg, rules, nums).value, p) <==>
            exists n :: n in nums && VyosMatch(site, env, rules[n], p)
    ensures forall n :: n in nums ==> rules[n].action == Some("accept")
    decreases nums
  {
    hide Translatable, ServiceTableRight, VyosMatch, Variants, RosMatch;
    if nums != [] {
      assert nums == [nums[0]] + nums[1..];
      VariantsGive(site, env, rules[nums[0]], p);
      NormalRulesMatch(site, cfg, env, rules, nums[1..], p);
      AnyMatchAppend(env, Variants(site, env.portLists, rules[nums[0]]).value, NormalRules(site, cfg, rules, nums[1..]).value, p);
    }
  }

  lemma VariantsGive(site: Site, env: Env, r: Rule, p: Packet)
    requires ServiceTableRight(site, env) && Translatable(site, env, r) && Variants(site, env.portLists, r).Some?
    ensures AnyMatch(env, Variants(site, env.portLists, r).value, p) <==> VyosMatch(site, env, r, p)
  {
    VariantsMean(site, env, r, p);
  }

  // With only accept rules, the lowest-numbered match and any match give the same verdict.
  lemma VyosVerdictOfAccepts(site: Site, env: Env, rs: Ruleset, p: Packet)
    requires forall n :: n in rs.rules ==> rs.rules[n].action == Some("accept")
    ensures VyosVerdict(site, env, rs, p) == "accept" <==>
            (exists n :: n in rs.rules && VyosMatch(site, env, rs.rules[n], p)) || rs.Default() == "accept"
  {
    hide VyosMatch;
    var matching := set n | n in rs.rules && VyosMatch(site, env, rs.rules[n], p);
    if n :| n in rs.rules && VyosMatch(site, env, rs.rules[n], p) {
      assert n in matching;
      var least := Least(matching);
      assert forall m :: m in rs.rules && VyosMatch(site, env, rs.rules[m], p) ==> m in matching;
    }
  }

  lemma DnsGrantsNothing(site: Site, cfg: Config, env: Env, zone: string, r: Rule, p: Packet)
    requires DnsEffect(site, cfg, zone, r).Some?
    ensures !Grants(env, DnsEffect(site, cfg, zone, r).value, p)
  {}

  ghost predicate RulesetGrants(site: Site, cfg: Config, env: Env, name: string, p: Packet) {
    ByRuleset(site, cfg, env, name, p) || ByContainer(site, cfg, env, name, p)
  }

  lemma NormalEffectGrants(env: Env, pair: Pair, action: string, rules: seq<Emitted>, p: Packet)
    ensures Grants(env, [Join(pair, Some(action), rules)], p) <==>
            pair == Pair(p.src, p.dst) && (action == "accept" || AnyMatch(env, rules, p))
  {
    var e := Join(pair, Some(action), rules);
    assert e in [e] && (Granted(env, e, p) <==> Grants(env, [e], p));
  }

  lemma OrdinaryGrants(site: Site, cfg: Config, env: Env, name: string, p: Packet)
    requires WellFormed(site, cfg, env) && name in cfg.rulesets && name in cfg.pairs && Ordinary(site, cfg.pairs[name])
    requires RulesetEffects(site, cfg, name).Some?
    ensures Grants(env, RulesetEffects(site, cfg, name).value, p) <==> RulesetGrants(site, cfg, env, name, p)
  {
    hide Translatable, ServiceTableRight, VyosMatch, Variants, VyosVerdict, NormalRules, Grants, AnyMatch;
    var pair, rs := cfg.pairs[name], cfg.rulesets[name];
    var nums := Numbers(rs.rules.Keys);
    assert forall n :: n in nums ==> n in rs.rules;
    NormalRulesMatch(site, cfg, env, rs.rules, nums, p);
    var rules := NormalRules(site, cfg, rs.rules, nums).value;
    assert forall n :: n in rs.rules ==> n in nums;
    VyosVerdictOfAccepts(site, env, rs, p);
    NormalEffectGrants(env, pair, rs.Default(), rules, p);
    NothingGrants(env, p);
    NothingMatches(env, p);
  }

  lemma NothingMatches(env: Env, p: Packet)
    ensures !AnyMatch(env, [], p)
  {}

  lemma ContainerGrants(site: Site, cfg: Config, env: Env, name: string, p: Packet)
    requires WellFormed(site, cfg, env) && name in cfg.rulesets && name in cfg.pairs && !Ordinary(site, cfg.pairs[name])
    requires RulesetEffects(site, cfg, name).Some?
    ensures Grants(env, RulesetEffects(site, cfg, name).value, p) <==> RulesetGrants(site, cfg, env, name, p)
  {
    hide Translatable, ServiceTableRight, VyosVerdict, ContainerRules, Grants, ToContainer, FromContainer, DnsEffect;
    var pair, rs := cfg.pairs[name], cfg.rulesets[name];
    var nums := Numbers(rs.rules.Keys);
    assert forall n :: n in nums <==> n in rs.rules;
    ContainerRulesGrant(site, cfg, env, name, pair, rs.rules, nums, p);
    if pair.dst in site.unported {
      var ofRules := ContainerRules(site, cfg, name, pair, rs.rules, nums).value;
      if rs.Default() == "accept" {
        DnsGrantsNothing(site, cfg, env, pair.src, DNS_RULE, p);
        GrantsAppend(env, DnsEffect(site, cfg, pair.src, DNS_RULE).value, ofRules, p);
      } else {
        assert [] + ofRules == ofRules;
      }
    }
  }

  lemma {:induction false} RulesetsGrant(site: Site, cfg: Config, env: Env, names: seq<string>, p: Packet)
    requires WellFormed(site, cfg, env) && forall n :: n in names ==> n in cfg.rulesets
    requires RulesetsEffects(site, cfg, names).Some?
    ensures Grants(env, RulesetsEffects(site, cfg, names).value, p) <==>
            exists name :: name in names && RulesetGrants(site, cfg, env, name, p)
  {
    hide WellFormed, Grants, RulesetEffects, RulesetGrants;
    if names == [] {
      NothingGrants(env, p);
    } else {
      assert names == [names[0]] + names[1..];
      OneRulesetGrants(site, cfg, env, names[0], p);
      RulesetsGrant(site, cfg, env, names[1..], p);
      GrantsAppend(env, RulesetEffects(site, cfg, names[0]).value, RulesetsEffects(site, cfg, names[1..]).value, p);
    }
  }

  lemma OneRulesetGrants(site: Site, cfg: Config, env: Env, name: string, p: Packet)
    requires WellFormed(site, cfg, env) && name in cfg.rulesets && RulesetEffects(site, cfg, name).Some?
    ensures Grants(env, RulesetEffects(site, cfg, name).value, p) <==> RulesetGrants(site, cfg, env, name, p)
  {
    hide WellFormed, VyosVerdict, VyosMatch;
    if name in cfg.pairs {
      if Ordinary(site, cfg.pairs[name]) {
        OrdinaryGrants(site, cfg, env, name, p);
      } else {
        ContainerGrants(site, cfg, env, name, p);
      }
    }
  }

  lemma {:induction false} NativeGrants(site: Site, env: Env, zones: seq<string>, p: Packet)
    ensures Grants(env, NativeEffects(site, zones), p) <==> p.src in zones && p.dst == site.nativeZone
  {
    if zones != [] {
      assert zones == [zones[0]] + zones[1..];
      NativeGrants(site, env, zones[1..], p);
      NormalEffectGrants(env, Pair(zones[0], site.nativeZone), "accept", [], p);
      GrantsAppend(env, [Join(Pair(zones[0], site.nativeZone), Some("accept"), [])], NativeEffects(site, zones[1..]), p);
    }
  }

  lemma {:induction false} TableRulesGrant(site: Site, cfg: Config, env: Env, pair: Pair, rules: seq<Rule>, p: Packet)
    requires ServiceTableRight(site, env) && env.portLists == cfg.portLists
    requires forall r :: r in rules ==> Translatable(site, env, r)
    requires TableRules(site, cfg, pair, rules).Some?
    ensures Grants(env, TableRules(site, cfg, pair, rules).value, p) <==>
            pair == Pair(p.src, p.dst) && exists r :: r in rules && VyosMatch(site, env, r, p)
  {
    hide Translatable, ServiceTableRight, VyosMatch, Grants, JoinEffect;
    if rules == [] {
      NothingGrants(env, p);
    } else {
      assert rules == [rules[0]] + rules[1..];
      JoinGrants(site, cfg, env, pair, rules[0], p);
      TableRulesGrant(site, cfg, env, pair, rules[1..], p);
      GrantsAppend(env, JoinEffect(site, cfg, pair, rules[0]).value, TableRules(site, cfg, pair, rules[1..]).value, p);
    }
  }

  lemma EmptyJoinGrantsNothing(env: Env, pair: Pair, p: Packet)
    ensures !Grants(env, [Join(pair, None, [])], p)
  {}

  lemma {:induction false} TablesGrant(site: Site, cfg: Config, env: Env, tables: seq<(Pair, seq<Rule>)>, p: Packet)
    requires ServiceTableRight(site, env) && env.portLists == cfg.portLists
    requires forall i, r :: 0 <= i < |tables| && r in tables[i].1 ==> Translatable(site, env, r)
    requires TableEffects(site, cfg, tables).Some?
    ensures Grants(env, TableEffects(site, cfg, tables).value, p) <==> ByTable(site, env, tables, p)
  {
    hide Translatable, ServiceTableRight, VyosMatch, Grants, TableRules;
    if tables == [] {
      NothingGrants(env, p);
    } else {
      var (pair, rules) := tables[0];
      var created := [Join(pair, None, [])];
      var rest := tables[1..];
      TableRulesGrant(site, cfg, env, pair, rules, p);
      EmptyJoinGrantsNothing(env, pair, p);
      GrantsAppend(env, created, TableRules(site, cfg, pair, rules).value, p);
      assert forall i, r :: 0 <= i < |rest| && r in rest[i].1 ==> r in tables[i + 1].1;
      TablesGrant(site, cfg, env, rest, p);
      GrantsAppend(env, created + TableRules(site, cfg, pair, rules).value, TableEffects(site, cfg, rest).value, p);
      ByTableCons(site, env, tables, p);
    }
  }

  lemma ByTableCons(site: Site, env: Env, tables: seq<(Pair, seq<Rule>)>, p: Packet)
    requires tables != []
    ensures ByTable(site, env, tables, p) <==>
            (tables[0].0 == Pair(p.src, p.dst) && exists r :: r in tables[0].1 && VyosMatch(site, env, r, p)) ||
            ByTable(site, env, tables[1..], p)
  {
    hide VyosMatch;
    var rest := tables[1..];
    if ByTable(site, env, rest, p) {
      var i, r :| 0 <= i < |rest| && r in rest[i].1 && rest[i].0 == Pair(p.src, p.dst) && VyosMatch(site, env, r, p);
      assert r in tables[i + 1].1;
    }
    if ByTable(site, env, tables, p) {
      var i, r :| 0 <= i < |tables| && r in tables[i].1 && tables[i].0 == Pair(p.src, p.dst) && VyosMatch(site, env, r, p);
      if i > 0 {
        assert rest[i - 1] == tables[i];
      }
    }
  }

  // The whole run grants exactly the justified packets, whatever order the
  // rulesets are visited in.
  lemma EffectsGrantJustified(site: Site, cfg: Config, env: Env, names: seq<string>, p: Packet)
    requires WellFormed(site, cfg, env) && forall n :: n in names <==> n in cfg.rulesets
    requires AllEffects(site, cfg, names).Some?
    ensures Grants(env, AllEffects(site, cfg, names).value, p) <==> Justified(site, cfg, env, p)
  {
    hide Grants, RulesetsEffects, NativeEffects, TableEffects, DnsEffect, ByRuleset, ByContainer, ByTable;
    var ofRulesets := RulesetsEffects(site, cfg, names).value;
    var native, dns := NativeEffects(site, site.nativeAccess), DnsEffect(site, cfg, site.nativeZone, DNS_RULE).value;
    var ofTables := TableEffects(site, cfg, site.extra).value;
    RulesetsGrant(site, cfg, env, names, p);
    NativeGrants(site, env, site.nativeAccess, p);
    DnsGrantsNothing(site, cfg, env, site.nativeZone, DNS_RULE, p);
    TablesGrant(site, cfg, env, site.extra, p);
    GrantsAppend(env, native, dns, p);
    GrantsAppend(env, ofRulesets, native + dns, p);
    GrantsAppend(env, ofRulesets + (native + dns), ofTables, p);
    RulesetJustifications(site, cfg, env, names, p);
  }

  lemma RulesetJustifications(site: Site, cfg: Config, env: Env, names: seq<string>, p: Packet)
    requires forall n :: n in names <==> n in cfg.rulesets
    ensures (exists name :: name in names && RulesetGrants(site, cfg, env, name, p)) <==>
            (exists name :: ByRuleset(site, cfg, env, name, p)) || (exists name :: ByContainer(site, cfg, env, name, p))
  {
    if name :| ByRuleset(site, cfg, env, name, p) {
      assert RulesetGrants(site, cfg, env, name, p);
    }
    if name :| ByContainer(site, cfg, env, name, p) {
      assert RulesetGrants(site, cfg, env, name, p);
    }
  }

  // ---- main results

  // The chain as Terraform builds it from the builder's maps: the policies whose
  // two zones have an interface list, in any order.
  ghost predicate LaidOut(policies: map<Key, Policy>, zones: set<string>, keys: seq<Key>, listing: map<Key, seq<Emitted>>) {
    && (forall k :: k in keys <==> k in policies && policies[k].pair.src in zones && policies[k].pair.dst in zones)
    && (forall k :: k in keys ==> k in listing)
    && (forall k, e :: k in keys ==> (e in listing[k] <==> e in policies[k].rules))
  }

  // A packet between two existing zones is forwarded iff a VyOS rule, a
  // container rule, the native VLAN access or a table entry justifies it.
  lemma ForwardedIffJustified(site: Site, cfg: Config, env: Env, names: seq<string>,
                              policies: map<Key, Policy>, pairKeys: map<Pair, Key>, sequence: nat,
                              zones: set<string>, keys: seq<Key>, listing: map<Key, seq<Emitted>>, p: Packet)
    requires WellFormed(site, cfg, env) && forall n :: n in names <==> n in cfg.rulesets
    requires AllEffects(site, cfg, names).Some?
    requires Mirrors(policies, pairKeys, sequence, AllEffects(site, cfg, names).value)
    requires LaidOut(policies, zones, keys, listing) && p.src in zones && p.dst in zones
    ensures Lists(policies, keys, listing)
    ensures Forwards(env, Chain(policies, keys, listing), p) <==> Justified(site, cfg, env, p)
  {
    hide AnyMatch, Forwards, Justified, WellFormed, AllEffects, Chain, Touched, RulesOf, AcceptsByDefault, Grants;
    var log, q := AllEffects(site, cfg, names).value, Pair(p.src, p.dst);
    assert Lists(policies, keys, listing);
    ChainVerdict(env, policies, keys, listing, p);
    PolicyGrants(env, log, p);
    EffectsGrantJustified(site, cfg, env, names, p);
    if q in pairKeys {
      assert policies[pairKeys[q]].pair == q;
      assert pairKeys[q] in keys;
    }
  }

  // Pairs that only their own VyOS ruleset can speak for.
  ghost predicate Untouched(site: Site, cfg: Config, q: Pair) {
    && Ordinary(site, q)
    && !(q.src in site.nativeAccess && q.dst == site.nativeZone)
    && (forall i :: 0 <= i < |site.extra| ==> site.extra[i].0 != q)
    && (forall name :: name in cfg.pairs ==>
          && !(cfg.pairs[name].dst in site.unported && cfg.pairs[name].src == q.src && q.dst == site.successor)
          && !(cfg.pairs[name].src in site.unported && cfg.pairs[name].dst == q.dst && q.src == site.successor))
  }

  // The VyOS verdict between two zones: the bound ruleset's, else a drop.
  ghost predicate VyosForwards(site: Site, cfg: Config, env: Env, p: Packet) {
    exists name :: name in cfg.pairs && name in cfg.rulesets && cfg.pairs[name] == Pair(p.src, p.dst) &&
                   VyosVerdict(site, env, cfg.rulesets[name], p) == "accept"
  }

  // On such a pair the router forwards exactly what VyOS forwarded.
  lemma MeaningPreserved(site: Site, cfg: Config, env: Env, names: seq<string>,
                         policies: map<Key, Policy>, pairKeys: map<Pair, Key>, sequence: nat,
                         zones: set<string>, keys: seq<Key>, listing: map<Key, seq<Emitted>>, p: Packet)
    requires WellFormed(site, cfg, env) && forall n :: n in names <==> n in cfg.rulesets
    requires AllEffects(site, cfg, names).Some?
    requires Mirrors(policies, pairKeys, sequence, AllEffects(site, cfg, names).value)
    requires LaidOut(policies, zones, keys, listing) && p.src in zones && p.dst in zones
    requires Untouched(site, cfg, Pair(p.src, p.dst))
    ensures Lists(policies, keys, listing)
    ensures Forwards(env, Chain(policies, keys, listing), p) <==> VyosForwards(site, cfg, env, p)
  {
    hide WellFormed, AllEffects, Mirrors, LaidOut, Lists, Forwards, Chain, VyosMatch, VyosVerdict, NewHome;
    ForwardedIffJustified(site, cfg, env, names, policies, pairKeys, sequence, zones, keys, listing, p);
    assert Justified(site, cfg, env, p) <==> exists name :: ByRuleset(site, cfg, env, name, p);
    if VyosForwards(site, cfg, env, p) {
      var name :| name in cfg.pairs && name in cfg.rulesets && cfg.pairs[name] == Pair(p.src, p.dst) &&
                  VyosVerdict(site, env, cfg.rulesets[name], p) == "accept";
      assert ByRuleset(site, cfg, env, name, p);
    }
  }

  // The bindings left after main() unbinds the retired zones.
  function LivePairs(pairs: map<string, Pair>, retired: set<string>): map<string, Pair> {
    map name | name in pairs && pairs[name].src !in retired && pairs[name].dst !in retired :: pairs[name]
  }

  // Nothing then justifies a packet from or to a retired zone, unless a table names it.
  lemma RetiredUnjustified(site: Site, cfg: Config, env: Env, retired: set<string>, p: Packet)
    requires LivePairs(cfg.pairs, retired) == cfg.pairs
    requires site.successor !in retired && site.nativeZone !in retired
    requires forall z :: z in site.nativeAccess ==> z !in retired
    requires forall i :: 0 <= i < |site.extra| ==> site.extra[i].0.src !in retired && site.extra[i].0.dst !in retired
    requires p.src in retired || p.dst in retired
    ensures !Justified(site, cfg, env, p)
  {
    hide VyosMatch, VyosVerdict, NewHome;
    assert forall name :: name in cfg.pairs ==> name in LivePairs(cfg.pairs, retired);
  }

  // So the chain forwards no packet from or to a retired zone, whether or not
  // the zone still has an interface list.
  lemma RetiredZonesDrop(site: Site, cfg: Config, env: Env, retired: set<string>, names: seq<string>,
                         policies: map<Key, Policy>, pairKeys: map<Pair, Key>, sequence: nat,
                         zones: set<string>, keys: seq<Key>, listing: map<Key, seq<Emitted>>, p: Packet)
    requires LivePairs(cfg.pairs, retired) == cfg.pairs
    requires site.successor !in retired && site.nativeZone !in retired
    requires forall z :: z in site.nativeAccess ==> z !in retired
    requires forall i :: 0 <= i < |site.extra| ==> site.extra[i].0.src !in retired && site.extra[i].0.dst !in retired
    requires p.src in retired || p.dst in retired
    requires WellFormed(site, cfg, env) && forall n :: n in names <==> n in cfg.rulesets
    requires AllEffects(site, cfg, names).Some?
    requires Mirrors(policies, pairKeys, sequence, AllEffects(site, cfg, names).value)
    requires LaidOut(policies, zones, keys, listing)
    ensures Lists(policies, keys, listing)
    ensures !Forwards(env, Chain(policies, keys, listing), p)
  {
    hide WellFormed, AllEffects, Forwards, Chain, Justified, Touched, RulesOf, AcceptsByDefault, AnyMatch;
    RetiredUnjustified(site, cfg, env, retired, p);
    if p.src in zones && p.dst in zones {
      ForwardedIffJustified(site, cfg, env, names, policies, pairKeys, sequence, zones, keys, listing, p);
    } else {
      assert Lists(policies, keys, listing);
      ChainVerdict(env, policies, keys, listing, p);
    }
  }

  // Retargeted and table rules never open a pair: only a bound ruleset's own
  // default-action, or the native VLAN access, does.
  lemma DefaultsComeFromRulesets(site: Site, cfg: Config, names: seq<string>, q: Pair)
    requires forall n :: n in names ==> n in cfg.rulesets
    requires AllEffects(site, cfg, names).Some?
    ensures AcceptsByDefault(AllEffects(site, cfg, names).value, q) <==>
            || (exists name :: name in names && OpensByRuleset(site, cfg, name, q))
            || (q.src in site.nativeAccess && q.dst == site.nativeZone)
  {
    hide DnsEffect, RulesetsEffects, NativeEffects, TableEffects, AcceptsByDefault;
    var ofRulesets := RulesetsEffects(site, cfg, names).value;
    var native, dns := NativeEffects(site, site.nativeAccess), DnsEffect(site, cfg, site.nativeZone, DNS_RULE).value;
    var ofTables := TableEffects(site, cfg, site.extra).value;
    DefaultsAppend(ofRulesets + (native + dns), ofTables, q);
    DefaultsAppend(ofRulesets, native + dns, q);
    DefaultsAppend(native, dns, q);
    RulesetDefaults(site, cfg, names, q);
    NativeDefaults(site, site.nativeAccess, q);
    DnsOpensNothing(site, cfg, site.nativeZone, DNS_RULE, q);
    TablesOpenNothing(site, cfg, site.extra, q);
  }

  predicate OpensByRuleset(site: Site, cfg: Config, name: string, q: Pair) {
    && name in cfg.rulesets && name in cfg.pairs && cfg.pairs[name] == q
    && q.src !in site.unported && q.dst !in site.unported
    && cfg.rulesets[name].defaultAction == Some("accept")
  }

  lemma DefaultsAppend(a: seq<Effect>, b: seq<Effect>, q: Pair)
    ensures AcceptsByDefault(a + b, q) <==> AcceptsByDefault(a, q) || AcceptsByDefault(b, q)
  {
    assert forall e :: e in a + b <==> e in a || e in b;
  }

  lemma {:induction false} RulesetDefaults(site: Site, cfg: Config, names: seq<string>, q: Pair)
    requires forall n :: n in names ==> n in cfg.rulesets
    requires RulesetsEffects(site, cfg, names).Some?
    ensures AcceptsByDefault(RulesetsEffects(site, cfg, names).value, q) <==>
            exists name :: name in names && OpensByRuleset(site, cfg, name, q)
  {
    if names != [] {
      assert names == [names[0]] + names[1..];
      RulesetDefault(site, cfg, names[0], q);
      RulesetDefaults(site, cfg, names[1..], q);
      DefaultsAppend(RulesetEffects(site, cfg, names[0]).value, RulesetsEffects(site, cfg, names[1..]).value, q);
    }
  }

  lemma RulesetDefault(site: Site, cfg: Config, name: string, q: Pair)
    requires name in cfg.rulesets && RulesetEffects(site, cfg, name).Some?
    ensures AcceptsByDefault(RulesetEffects(site, cfg, name).value, q) <==> OpensByRuleset(site, cfg, name, q)
  {
    hide DnsEffect, ContainerRules, NormalRules;
    if name in cfg.pairs && !Ordinary(site, cfg.pairs[name]) {
      var pair, rs := cfg.pairs[name], cfg.rulesets[name];
      var ofRules := ContainerRules(site, cfg, name, pair, rs.rules, Numbers(rs.rules.Keys));
      ContainersOpenNothing(site, cfg, name, pair, rs.rules, Numbers(rs.rules.Keys), q);
      if pair.dst in site.unported && rs.Default() == "accept" {
        DnsOpensNothing(site, cfg, pair.src, DNS_RULE, q);
        DefaultsAppend(DnsEffect(site, cfg, pair.src, DNS_RULE).value, ofRules.value, q);
      } else {
        assert [] + ofRules.value == ofRules.value;
      }
    }
  }

  lemma DnsOpensNothing(site: Site, cfg: Config, zone: string, r: Rule, q: Pair)
    requires DnsEffect(site, cfg, zone, r).Some?
    ensures !AcceptsByDefault(DnsEffect(site, cfg, zone, r).value, q)
  {}

  lemma {:induction false} ContainersOpenNothing(site: Site, cfg: Config, name: string, pair: Pair,
                                                 rules: map<nat, Rule>, nums: seq<nat>, q: Pair)
    requires forall n :: n in nums ==> n in rules
    requires ContainerRules(site, cfg, name, pair, rules, nums).Some?
    ensures !AcceptsByDefault(ContainerRules(site, cfg, name, pair, rules, nums).value, q)
    decreases nums
  {
    hide Variants, RetargetDst;
    if nums != [] {
      ContainersOpenNothing(site, cfg, name, pair, rules, nums[1..], q);
      DefaultsAppend(ContainerRule(site, cfg, name, pair, rules[nums[0]]).value,
                     ContainerRules(site, cfg, name, pair, rules, nums[1..]).value, q);
    }
  }

  lemma {:induction false} NativeDefaults(site: Site, zones: seq<string>, q: Pair)
    ensures AcceptsByDefault(NativeEffects(site, zones), q) <==> q.src in zones && q.dst == site.nativeZone
  {
    if zones != [] {
      assert zones == [zones[0]] + zones[1..];
      NativeDefaults(site, zones[1..], q);
      var e := Join(Pair(zones[0], site.nativeZone), Some("accept"), []);
      DefaultsAppend([e], NativeEffects(site, zones[1..]), q);
      assert e in [e];
    }
  }

  lemma {:induction false} TablesOpenNothing(site: Site, cfg: Config, tables: seq<(Pair, seq<Rule>)>, q: Pair)
    requires TableEffects(site, cfg, tables).Some?
    ensures !AcceptsByDefault(TableEffects(site, cfg, tables).value, q)
  {
    if tables != [] {
      var created := [Join(tables[0].0, None, [])];
      var ofRules := TableRules(site, cfg, tables[0].0, tables[0].1).value;
      TableOpensNothing(site, cfg, tables[0].0, tables[0].1, q);
      DefaultsAppend(created, ofRules, q);
      TablesOpenNothing(site, cfg, tables[1..], q);
      DefaultsAppend(created + ofRules, TableEffects(site, cfg, tables[1..]).value, q);
    }
  }

  lemma {:induction false} TableOpensNothing(site: Site, cfg: Config, pair: Pair, rules: seq<Rule>, q: Pair)
    requires TableRules(site, cfg, pair, rules).Some?
    ensures !AcceptsByDefault(TableRules(site, cfg, pair, rules).value, q)
  {
    if rules != [] {
      TableOpensNothing(site, cfg, pair, rules[1..], q);
      DefaultsAppend(JoinEffect(site, cfg, pair, rules[0]).value, TableRules(site, cfg, pair, rules[1..]).value, q);
    }
  }

  // ---- DNS on the router's input chain

  // The input rules that answer DNS never listen on the outside zone's list
  // (which holds the WAN port).
  ghost predicate Scoped(site: Site, inputs: Inputs) {
    forall k :: k in inputs.rules ==>
      && inputs.rules[k].listen != ZoneList(site.outsideZone)
      && (k.zone != site.outsideZone ==> inputs.rules[k].listen == ZoneList(k.zone))
  }

  lemma {:induction false} AddDnsScoped(site: Site, vlans: map<string, Vlan>, zone: string, variants: seq<Emitted>,
                                        before: Inputs)
    requires Scoped(site, before)
    ensures Scoped(site, AddDns(site, vlans, zone, variants, before))
  {
    if variants != [] {
      AddDnsScoped(site, vlans, zone, variants[..|variants| - 1], before);
    }
  }

  lemma {:induction false} DnsNeverOnOutside(site: Site, vlans: map<string, Vlan>, log: seq<Effect>)
    ensures Scoped(site, InputsOf(site, vlans, log))
  {
    if log != [] {
      DnsNeverOnOutside(site, vlans, log[..|log| - 1]);
      var e := log[|log| - 1];
      if e.Dns? {
        AddDnsScoped(site, vlans, e.zone, e.variants, InputsOf(site, vlans, log[..|log| - 1]));
      }
    }
  }
}
