// The two firewall languages of vyos-to-locals.py and what the generator emits
// for one rule: VyOS rules and rulesets, RouterOS rules and the flat forward
// chain, and the packets they match.

module FirewallModel {
  import opened Options

  datatype Pair = Pair(src: string, dst: string)

  // A parsed VyOS rule. `unknown` holds when it carries a match key the
  // generator does not translate.
  datatype Rule = Rule(
    action: Option<string>,
    protocol: Option<string>,
    srcList: Option<string>, dstList: Option<string>,
    srcAddr: Option<string>, dstAddr: Option<string>,
    portList: Option<string>,
    portSpec: Option<string>,
    unknown: bool)

  datatype Ruleset = Ruleset(rules: map<nat, Rule>, defaultAction: Option<string>) {
    function Default(): string {
      defaultAction.GetOr("drop")
    }
  }

  // A RouterOS accept rule; `ports == []` means no dst-port match.
  datatype Emitted = Emitted(
    protocol: Option<string>,
    srcList: Option<string>, dstList: Option<string>,
    srcAddr: Option<string>, dstAddr: Option<string>,
    portList: Option<string>,
    ports: seq<string>)

  // The script's tables.
  datatype Site = Site(
    servicePorts: map<string, string>,
    protocolAliases: map<string, string>,
    unported: set<string>,
    successor: string,
    dnsSpecs: set<string>,
    containerGroups: map<string, string>,
    haproxyGroups: set<string>,
    portGroupDestinations: map<string, string>,
    sourceRulesets: map<string, string>,
    outsideZone: string,
    nativeAccess: seq<string>,
    nativeZone: string,
    extra: seq<(Pair, seq<Rule>)>)  // EXTRA_, CI_ and MONITORING_ZONE_RULES, in that order

  const MAX_DST_PORTS := 15

  // ---- packets and what the names in a rule stand for

  datatype Packet = Packet(src: string, dst: string, proto: string, from: nat, target: nat, port: nat)

  datatype Env = Env(
    inList: (string, nat) -> bool,      // address list, address
    inAddr: (string, nat) -> bool,      // literal address or range, address
    vyosPort: (string, nat) -> bool,    // one VyOS port token: number, range or service name
    rosPort: (string, nat) -> bool,     // one RouterOS dst-port entry
    portLists: map<string, seq<string>>)  // port groups, as parsed (service names already mapped)

  function Service(site: Site, token: string): string {
    if token in site.servicePorts then site.servicePorts[token] else token
  }

  // SERVICE_PORTS names each service's number, and both systems read numbers alike.
  ghost predicate ServiceTableRight(site: Site, env: Env) {
    forall token, n :: env.vyosPort(token, n) <==>
                       env.rosPort(if token in site.servicePorts then site.servicePorts[token] else token, n)
  }

  // ---- VyOS

  function Trim(s: string, chars: set<char>): string {
    TrimEnd(TrimStart(s, chars), chars)
  }

  function TrimStart(s: string, chars: set<char>): string {
    if s != [] && s[0] in chars then TrimStart(s[1..], chars) else s
  }

  function TrimEnd(s: string, chars: set<char>): string {
    if s != [] && s[|s| - 1] in chars then TrimEnd(s[..|s| - 1], chars) else s
  }

  const WHITESPACE := {' ', '\t', '\n', '\r'}

  function Split(s: string, sep: char): (parts: seq<string>)
    ensures parts != []
  {
    if s == [] then [[]]
    else
      var rest := Split(s[1..], sep);
      if s[0] == sep then [[]] + rest else [[s[0]] + rest[0]] + rest[1..]
  }

  function NonEmpty(parts: seq<string>): seq<string> {
    if parts == [] then []
    else
      var t := Trim(parts[0], WHITESPACE);
      (if t == "" then [] else [t]) + NonEmpty(parts[1..])
  }

  // The port tokens of a `destination port` value.
  function Tokens(spec: string): seq<string> {
    NonEmpty(Split(Trim(Trim(Trim(spec, WHITESPACE), {'\''}), {'"'}), ','))
  }

  function Alias(site: Site, proto: string): string {
    if proto in site.protocolAliases then site.protocolAliases[proto] else proto
  }

  predicate VyosProto(site: Site, proto: Option<string>, packet: string) {
    match proto
    case None => true
    case Some(p) =>
      var name := if p in site.protocolAliases then site.protocolAliases[p] else p;
      if name == "tcp_udp" then packet in {"tcp", "udp"} else packet == name
  }

  ghost predicate Addresses(env: Env, srcList: Option<string>, dstList: Option<string>,
                            srcAddr: Option<string>, dstAddr: Option<string>, p: Packet)
  {
    && (srcList.Some? ==> env.inList(srcList.value, p.from))
    && (dstList.Some? ==> env.inList(dstList.value, p.target))
    && (srcAddr.Some? ==> env.inAddr(srcAddr.value, p.from))
    && (dstAddr.Some? ==> env.inAddr(dstAddr.value, p.target))
  }

  function Group(env: Env, name: string): seq<string> {
    if name in env.portLists then env.portLists[name] else []
  }

  ghost predicate VyosPorts(env: Env, r: Rule, port: nat) {
    && (r.portList.Some? ==> AnyRos(env, Group(env, r.portList.value), port))
    && (r.portSpec.Some? ==> InSpec(env, r.portSpec.value, port))
  }

  ghost predicate InSpec(env: Env, spec: string, port: nat) {
    exists t :: t in Tokens(spec) && env.vyosPort(t, port)
  }

  ghost predicate AnyRos(env: Env, ports: seq<string>, port: nat) {
    exists t :: t in ports && env.rosPort(t, port)
  }

  ghost predicate VyosMatch(site: Site, env: Env, r: Rule, p: Packet) {
    && VyosProto(site, r.protocol, p.proto)
    && Addresses(env, r.srcList, r.dstList, r.srcAddr, r.dstAddr, p)
    && VyosPorts(env, r, p.port)
  }

  // The lowest-numbered matching rule decides, else the ruleset's default action.
  ghost function VyosVerdict(site: Site, env: Env, rs: Ruleset, p: Packet): string {
    if n :| n in rs.rules && VyosMatch(site, env, rs.rules[n], p) &&
            (forall m :: m in rs.rules && VyosMatch(site, env, rs.rules[m], p) ==> n <= m)
    then rs.rules[n].action.GetOr("none")
    else if rs.defaultAction.Some? then rs.defaultAction.value
    else "drop"
  }

  // ---- RouterOS

  // A group without ports is rendered as an empty dst-port, which is no match at all.
  ghost predicate RosPorts(env: Env, e: Emitted, port: nat) {
    && (e.portList.Some? && Group(env, e.portList.value) != [] ==> AnyRos(env, Group(env, e.portList.value), port))
    && (e.ports != [] ==> AnyRos(env, e.ports, port))
  }

  ghost predicate RosMatch(env: Env, e: Emitted, p: Packet) {
    && (e.protocol.Some? ==> p.proto == e.protocol.value)
    && Addresses(env, e.srcList, e.dstList, e.srcAddr, e.dstAddr, p)
    && RosPorts(env, e, p.port)
  }

  ghost predicate AnyMatch(env: Env, rules: seq<Emitted>, p: Packet) {
    exists e :: e in rules && RosMatch(env, e, p)
  }

  // ---- one rule's variants

  function ChunkPorts(ports: seq<string>): (chunks: seq<seq<string>>)
    ensures chunks != []
    ensures forall c :: c in chunks ==> |c| <= 15
    ensures ports != [] ==> forall c :: c in chunks ==> c != []
    ensures ports == [] ==> chunks == [[]]
  {
    if |ports| <= MAX_DST_PORTS then [ports]
    else [ports[..MAX_DST_PORTS]] + ChunkPorts(ports[MAX_DST_PORTS..])
  }

  function ExpandProtocol(site: Site, proto: Option<string>): (out: seq<Option<string>>)
    ensures out != []
  {
    match proto
    case None => [None]
    case Some(p) => if Alias(site, p) == "tcp_udp" then [Some("tcp"), Some("udp")] else [Some(Alias(site, p))]
  }

  function Resolved(site: Site, tokens: seq<string>): (r: seq<string>)
    ensures |r| == |tokens|
    ensures forall i :: 0 <= i < |r| ==> r[i] == Service(site, tokens[i])
  {
    seq(|tokens|, i requires 0 <= i < |tokens| => Service(site, tokens[i]))
  }

  // The port lists to emit, one rule each; [] stands for a rule without dst-port.
  function PortChunks(site: Site, portLists: map<string, seq<string>>, r: Rule): (chunks: seq<seq<string>>)
    ensures chunks != []
  {
    match r.portList
    case Some(l) =>
      var members := if l in portLists then portLists[l] else [];
      if |members| > MAX_DST_PORTS then ChunkPorts(members) else [[]]
    case None =>
      match r.portSpec
      case Some(s) => ChunkPorts(Resolved(site, Tokens(s)))
      case None => [[]]
  }

  // A port group stays a reference unless it is too long for one rule.
  function KeptPortList(portLists: map<string, seq<string>>, r: Rule): Option<string> {
    if r.portList.Some? && |if r.portList.value in portLists then portLists[r.portList.value] else []| > MAX_DST_PORTS
    then None else r.portList
  }

  function Variant(portLists: map<string, seq<string>>, r: Rule, proto: Option<string>, chunk: seq<string>): Emitted {
    Emitted(if proto == Some("") then None else proto,
            r.srcList, r.dstList, r.srcAddr, r.dstAddr, KeptPortList(portLists, r), chunk)
  }

  function VariantsFor(portLists: map<string, seq<string>>, r: Rule, proto: Option<string>, chunks: seq<seq<string>>): (v: seq<Emitted>)
    ensures |v| == |chunks|
    ensures forall i :: 0 <= i < |v| ==> v[i] == Variant(portLists, r, proto, chunks[i])
  {
    seq(|chunks|, i requires 0 <= i < |chunks| => Variant(portLists, r, proto, chunks[i]))
  }

  function AllVariants(portLists: map<string, seq<string>>, r: Rule,
                       protos: seq<Option<string>>, chunks: seq<seq<string>>): seq<Emitted>
  {
    if protos == [] then []
    else VariantsFor(portLists, r, protos[0], chunks) + AllVariants(portLists, r, protos[1..], chunks)
  }

  // `emit_variants`; None is the SystemExit on a rule it cannot translate.
  function Variants(site: Site, portLists: map<string, seq<string>>, r: Rule): Option<seq<Emitted>> {
    if r.unknown then None
    else Some(AllVariants(portLists, r, ExpandProtocol(site, r.protocol), PortChunks(site, portLists, r)))
  }

  // ---- meaning of one rule's variants

  // The generator keeps the ports of the rule: a group or a value has some, and
  // a value beside a group (which it drops) leaves out none of the group's.
  ghost predicate PortsKept(env: Env, r: Rule) {
    && (r.portList.Some? ==> Group(env, r.portList.value) != [])
    && (r.portList.None? && r.portSpec.Some? ==> Tokens(r.portSpec.value) != [])
    && (r.portList.Some? && r.portSpec.Some? ==>
          forall n: nat :: AnyRos(env, Group(env, r.portList.value), n) ==> InSpec(env, r.portSpec.value, n))
  }

  // What the generator relies on.
  ghost predicate Translatable(site: Site, env: Env, r: Rule) {
    (r.protocol.Some? ==> Alias(site, r.protocol.value) != "") && PortsKept(env, r)
  }

  // What the emitted rules ask of protocol and port.
  ghost predicate EmittedProto(site: Site, r: Rule, proto: string) {
    (r.protocol.Some? && Alias(site, r.protocol.value) == "") || VyosProto(site, r.protocol, proto)
  }

  ghost predicate EmittedPorts(env: Env, r: Rule, port: nat) {
    match r.portList
    case Some(l) => Group(env, l) == [] || AnyRos(env, Group(env, l), port)
    case None => r.portSpec.None? || Tokens(r.portSpec.value) == [] || InSpec(env, r.portSpec.value, port)
  }

  lemma {:induction false} ChunksCover(ports: seq<string>, t: string)
    ensures t in ports <==> exists c :: c in ChunkPorts(ports) && t in c
  {
    if |ports| <= MAX_DST_PORTS {
      assert ports in ChunkPorts(ports);
    } else {
      var rest := ports[MAX_DST_PORTS..];
      assert ports == ports[..MAX_DST_PORTS] + rest;
      ChunksCover(rest, t);
      assert ChunkPorts(ports)[0] == ports[..MAX_DST_PORTS];
      assert forall c :: c in ChunkPorts(ports) <==> c == ports[..MAX_DST_PORTS] || c in ChunkPorts(rest);
    }
  }

  lemma {:induction false} AllVariantsAre(portLists: map<string, seq<string>>, r: Rule,
                                          protos: seq<Option<string>>, chunks: seq<seq<string>>, e: Emitted)
    ensures e in AllVariants(portLists, r, protos, chunks) <==>
            exists q, c :: q in protos && c in chunks && e == Variant(portLists, r, q, c)
  {
    if protos != [] {
      var first := VariantsFor(portLists, r, protos[0], chunks);
      AllVariantsAre(portLists, r, protos[1..], chunks, e);
      assert e in first <==> exists c :: c in chunks && e == Variant(portLists, r, protos[0], c);
      assert protos == [protos[0]] + protos[1..];
    }
  }

  ghost predicate ProtoFits(q: Option<string>, proto: string) {
    q.Some? && q.value != "" ==> proto == q.value
  }

  ghost predicate ChunkFits(env: Env, r: Rule, chunk: seq<string>, port: nat) {
    && (KeptPortList(env.portLists, r).Some? && Group(env, r.portList.value) != [] ==>
          AnyRos(env, Group(env, r.portList.value), port))
    && (chunk != [] ==> AnyRos(env, chunk, port))
  }

  lemma ProtocolsMean(site: Site, r: Rule, proto: string)
    ensures (exists q :: q in ExpandProtocol(site, r.protocol) && ProtoFits(q, proto)) <==> EmittedProto(site, r, proto)
  {
    match r.protocol {
      case None =>
        assert None in ExpandProtocol(site, r.protocol) && ProtoFits(None, proto);
      case Some(p) =>
        if Alias(site, p) == "tcp_udp" {
          assert Some("tcp") in ExpandProtocol(site, r.protocol) && Some("udp") in ExpandProtocol(site, r.protocol);
          assert ProtoFits(Some("tcp"), proto) <==> proto == "tcp";
          assert ProtoFits(Some("udp"), proto) <==> proto == "udp";
        } else {
          assert Some(Alias(site, p)) in ExpandProtocol(site, r.protocol);
          assert ProtoFits(Some(Alias(site, p)), proto) <==> Alias(site, p) == "" || proto == Alias(site, p);
        }
    }
  }

  // A list split into chunks matches a port iff one of its chunks does.
  lemma ChunksMean(env: Env, ports: seq<string>, port: nat)
    ensures AnyRos(env, ports, port) <==> exists c :: c in ChunkPorts(ports) && AnyRos(env, c, port)
  {
    if AnyRos(env, ports, port) {
      var t :| t in ports && env.rosPort(t, port);
      ChunksCover(ports, t);
      var c :| c in ChunkPorts(ports) && t in c;
      assert AnyRos(env, c, port);
    }
    if c :| c in ChunkPorts(ports) && AnyRos(env, c, port) {
      var t :| t in c && env.rosPort(t, port);
      ChunksCover(ports, t);
    }
  }

  lemma SpecMeans(site: Site, env: Env, spec: string, port: nat)
    requires ServiceTableRight(site, env)
    ensures AnyRos(env, Resolved(site, Tokens(spec)), port) <==> InSpec(env, spec, port)
  {
    var tokens := Tokens(spec);
    var r := Resolved(site, tokens);
    if t :| t in r && env.rosPort(t, port) {
      var i :| 0 <= i < |r| && r[i] == t;
      assert tokens[i] in tokens && env.vyosPort(tokens[i], port);
    }
    if t :| t in tokens && env.vyosPort(t, port) {
      var i :| 0 <= i < |tokens| && tokens[i] == t;
      assert r[i] in r;
    }
  }

  lemma PortsMean(site: Site, env: Env, r: Rule, port: nat)
    requires ServiceTableRight(site, env)
    ensures (exists c :: c in PortChunks(site, env.portLists, r) && ChunkFits(env, r, c, port)) <==> EmittedPorts(env, r, port)
  {
    var chunks := PortChunks(site, env.portLists, r);
    if r.portList.Some? && |Group(env, r.portList.value)| > MAX_DST_PORTS {
      ChunksMean(env, Group(env, r.portList.value), port);
      assert forall c :: c in chunks ==> (ChunkFits(env, r, c, port) <==> AnyRos(env, c, port));
    } else if r.portList.None? && r.portSpec.Some? && Tokens(r.portSpec.value) != [] {
      ChunksMean(env, Resolved(site, Tokens(r.portSpec.value)), port);
      SpecMeans(site, env, r.portSpec.value, port);
      assert forall c :: c in chunks ==> (ChunkFits(env, r, c, port) <==> AnyRos(env, c, port));
    } else {
      assert chunks == [[]] && [] in chunks;
      assert ChunkFits(env, r, [], port) <==> EmittedPorts(env, r, port);
    }
  }

  lemma VariantMeans(env: Env, r: Rule, q: Option<string>, c: seq<string>, p: Packet)
    ensures RosMatch(env, Variant(env.portLists, r, q, c), p) <==>
            ProtoFits(q, p.proto) && Addresses(env, r.srcList, r.dstList, r.srcAddr, r.dstAddr, p) && ChunkFits(env, r, c, p.port)
  {}

  // What the variants of any rule match: its addresses, its protocol unless that
  // has an empty name, and its port group, or without one its port value, where
  // either without ports is no match at all.
  lemma VariantsMatchExactly(site: Site, env: Env, r: Rule, p: Packet)
    requires ServiceTableRight(site, env) && !r.unknown
    ensures AnyMatch(env, Variants(site, env.portLists, r).value, p) <==>
            && EmittedProto(site, r, p.proto) && EmittedPorts(env, r, p.port)
            && Addresses(env, r.srcList, r.dstList, r.srcAddr, r.dstAddr, p)
  {
    hide Variant, Addresses, RosMatch, ProtoFits, ChunkFits, EmittedPorts, EmittedProto, AllVariants, ExpandProtocol, PortChunks;
    hide ServiceTableRight;
    var protos, chunks := ExpandProtocol(site, r.protocol), PortChunks(site, env.portLists, r);
    var variants := Variants(site, env.portLists, r).value;
    ProtocolsMean(site, r, p.proto);
    PortsMean(site, env, r, p.port);
    if EmittedProto(site, r, p.proto) && EmittedPorts(env, r, p.port)
       && Addresses(env, r.srcList, r.dstList, r.srcAddr, r.dstAddr, p) {
      var q :| q in protos && ProtoFits(q, p.proto);
      var c :| c in chunks && ChunkFits(env, r, c, p.port);
      var e := Variant(env.portLists, r, q, c);
      AllVariantsAre(env.portLists, r, protos, chunks, e);
      VariantMeans(env, r, q, c, p);
    }
    if e :| e in variants && RosMatch(env, e, p) {
      AllVariantsAre(env.portLists, r, protos, chunks, e);
      var q, c :| q in protos && c in chunks && e == Variant(env.portLists, r, q, c);
      VariantMeans(env, r, q, c, p);
    }
  }

  // The variants of a translatable rule together match exactly the packets of
  // the VyOS rule.
  lemma VariantsMean(site: Site, env: Env, r: Rule, p: Packet)
    requires ServiceTableRight(site, env) && Translatable(site, env, r) && !r.unknown
    ensures AnyMatch(env, Variants(site, env.portLists, r).value, p) <==> VyosMatch(site, env, r, p)
  {
    hide Addresses, AnyMatch, Variants, ServiceTableRight, InSpec, AnyRos;
    VariantsMatchExactly(site, env, r, p);
  }

  // Only translatable ports are: on the packets that the rule's other matches
  // admit, both sides agree whatever the port iff the ports are kept.
  lemma VariantsAgreeIff(site: Site, env: Env, r: Rule, p: Packet)
    requires ServiceTableRight(site, env) && !r.unknown
    requires VyosProto(site, r.protocol, p.proto) && Addresses(env, r.srcList, r.dstList, r.srcAddr, r.dstAddr, p)
    ensures (forall n: nat :: SameVerdict(site, env, r, p.(port := n))) <==> PortsKept(env, r)
  {
    hide AnyMatch, Variants, ServiceTableRight, InSpec, AnyRos, VyosProto;
    forall n: nat
      ensures SameVerdict(site, env, r, p.(port := n)) <==> (EmittedPorts(env, r, n) <==> VyosPorts(env, r, n))
    {
      VariantsMatchExactly(site, env, r, p.(port := n));
    }
    NoPortsNoMatch(env, r, 0);
    if !PortsKept(env, r) {
      if n: nat :| r.portList.Some? && r.portSpec.Some? && AnyRos(env, Group(env, r.portList.value), n)
                   && !InSpec(env, r.portSpec.value, n) {
        assert !SameVerdict(site, env, r, p.(port := n));
      } else {
        assert !SameVerdict(site, env, r, p.(port := 0));
      }
    }
  }

  ghost predicate SameVerdict(site: Site, env: Env, r: Rule, p: Packet)
    requires !r.unknown
  {
    AnyMatch(env, Variants(site, env.portLists, r).value, p) <==> VyosMatch(site, env, r, p)
  }

  lemma NoPortsNoMatch(env: Env, r: Rule, port: nat)
    ensures r.portList.Some? && Group(env, r.portList.value) == [] ==> !VyosPorts(env, r, port)
    ensures r.portSpec.Some? && Tokens(r.portSpec.value) == [] ==> !VyosPorts(env, r, port)
  {}

  // A port value beside a port group is dropped: the variants match what the
  // rule without it does.
  lemma PortValueBesideGroupIsDropped(site: Site, env: Env, r: Rule, p: Packet)
    requires ServiceTableRight(site, env) && !r.unknown && r.portSpec.Some?
    requires r.protocol.Some? ==> Alias(site, r.protocol.value) != ""
    requires r.portList.Some? && Group(env, r.portList.value) != []
    ensures AnyMatch(env, Variants(site, env.portLists, r).value, p) <==> VyosMatch(site, env, r.(portSpec := None), p)
  {
    hide AnyMatch, Variants, ServiceTableRight, InSpec, AnyRos;
    VariantsMatchExactly(site, env, r, p);
  }

  // An empty port group, or a port value without a single token, matches every
  // port once emitted and none in VyOS: on the packets its other matches admit,
  // the two agree iff there is a port.
  lemma EmptyPortValueWidens(site: Site, env: Env, r: Rule, p: Packet)
    requires ServiceTableRight(site, env) && !r.unknown
    requires r.portList.Some? != r.portSpec.Some?
    requires VyosProto(site, r.protocol, p.proto) && Addresses(env, r.srcList, r.dstList, r.srcAddr, r.dstAddr, p)
    ensures SameVerdict(site, env, r, p) <==>
            if r.portList.Some? then Group(env, r.portList.value) != [] else Tokens(r.portSpec.value) != []
  {
    hide AnyMatch, Variants, ServiceTableRight, InSpec, AnyRos, VyosProto;
    VariantsMatchExactly(site, env, r, p);
    NoPortsNoMatch(env, r, p.port);
  }
}
