// Accounting of flow records: which client, direction, network and service a
// record is credited to, and the counters that build up and expire.

module FlowAccount {
  import opened FlowWire
  import opened Options

  datatype Direction = Transmit | Receive

  datatype Key = Key(direction: Direction, client: nat, asn: nat, service: string)

  datatype Counter = Counter(bytes: nat, last: real)

  type Counters = map<Key, Counter>

  // Parallel columns, one entry per address range.
  datatype AsnTable = AsnTable(starts: seq<nat>, ends: seq<nat>, asns: seq<nat>) {
    predicate Aligned() {
      |ends| == |starts| && |asns| == |starts|
    }
  }

  datatype ServiceRange = ServiceRange(proto: string, lo: nat, hi: nat, name: string)

  datatype Network = Network(first: nat, last: nat)

  datatype Setup = Setup(lan: seq<Network>, ttl: real, services: seq<ServiceRange>)

  predicate IsLan(setup: Setup, ip: nat) {
    exists n | n in setup.lan :: n.first <= ip <= n.last
  }

  // ---- network of an address

  function BisectRight(a: seq<nat>, x: nat, lo: nat, hi: nat): (i: nat)
    requires lo <= hi <= |a|
    ensures lo <= i <= hi
    decreases hi - lo
  {
    if lo == hi then lo
    else
      var mid := (lo + hi) / 2;
      if x < a[mid] then BisectRight(a, x, lo, mid) else BisectRight(a, x, mid + 1, hi)
  }

  // 0 is "unknown".
  function LookupAsn(t: AsnTable, ip: nat): nat
    requires t.Aligned()
  {
    var i := BisectRight(t.starts, ip, 0, |t.starts|) - 1;
    if i >= 0 && ip <= t.ends[i] then t.asns[i] else 0
  }

  // The first listed range that holds the address.
  function LinearScan(t: AsnTable, ip: nat, i: nat): nat
    requires t.Aligned() && i <= |t.starts|
    decreases |t.starts| - i
  {
    if i == |t.starts| then 0
    else if t.starts[i] <= ip <= t.ends[i] then t.asns[i]
    else LinearScan(t, ip, i + 1)
  }

  ghost predicate SortedDisjoint(t: AsnTable) {
    && t.Aligned()
    && (forall i :: 0 <= i < |t.starts| ==> t.starts[i] <= t.ends[i])
    && forall i, j :: 0 <= i < j < |t.starts| ==> t.ends[i] < t.starts[j]
  }

  lemma {:induction false} BisectSplits(a: seq<nat>, x: nat, lo: nat, hi: nat)
    requires lo <= hi <= |a| && forall i, j :: 0 <= i < j < |a| ==> a[i] < a[j]
    requires (forall i :: 0 <= i < lo ==> a[i] <= x) && forall i :: hi <= i < |a| ==> x < a[i]
    ensures var k := BisectRight(a, x, lo, hi);
            (forall i :: 0 <= i < k ==> a[i] <= x) && forall i :: k <= i < |a| ==> x < a[i]
    decreases hi - lo
  {
    if lo < hi {
      var mid := (lo + hi) / 2;
      if x < a[mid] {
        BisectSplits(a, x, lo, mid);
      } else {
        BisectSplits(a, x, mid + 1, hi);
      }
    }
  }

  lemma {:induction false} ScanFinds(t: AsnTable, ip: nat, i: nat, at: nat)
    requires SortedDisjoint(t) && i <= at < |t.starts| && t.starts[at] <= ip <= t.ends[at]
    ensures LinearScan(t, ip, i) == t.asns[at]
    decreases |t.starts| - i
  {
    if i < at {
      ScanFinds(t, ip, i + 1, at);
    }
  }

  lemma {:induction false} ScanMisses(t: AsnTable, ip: nat, i: nat)
    requires t.Aligned() && i <= |t.starts|
    requires forall j :: i <= j < |t.starts| ==> !(t.starts[j] <= ip <= t.ends[j])
    ensures LinearScan(t, ip, i) == 0
    decreases |t.starts| - i
  {
    if i < |t.starts| {
      ScanMisses(t, ip, i + 1);
    }
  }

  // The bisect answers what a scan of the whole table would.
  lemma LookupIsScan(t: AsnTable, ip: nat)
    requires SortedDisjoint(t)
    ensures LookupAsn(t, ip) == LinearScan(t, ip, 0)
  {
    forall i, j | 0 <= i < j < |t.starts|
      ensures t.starts[i] < t.starts[j]
    {
      assert t.starts[i] <= t.ends[i];
    }
    BisectSplits(t.starts, ip, 0, |t.starts|);
    var k := BisectRight(t.starts, ip, 0, |t.starts|);
    if k > 0 && ip <= t.ends[k - 1] {
      ScanFinds(t, ip, 0, k - 1);
    } else {
      forall j | 0 <= j < |t.starts|
        ensures !(t.starts[j] <= ip <= t.ends[j])
      {
        assert k > 0 && j < k - 1 ==> t.ends[j] < t.starts[k - 1];
      }
      ScanMisses(t, ip, 0);
    }
  }

  // ---- service of a record

  const PROTO_NAMES := map[1 := "icmp", 6 := "tcp", 17 := "udp", 47 := "gre", 50 := "esp", 58 := "icmpv6"]

  function RangeName(services: seq<ServiceRange>, proto: string, port: nat): Option<string> {
    if services == [] then None
    else if services[0].proto == proto && services[0].lo <= port <= services[0].hi then Some(services[0].name)
    else RangeName(services[1..], proto, port)
  }

  function ServiceOf(services: seq<ServiceRange>, proto: nat, remotePort: nat, clientPort: nat): string {
    var pname := if proto in PROTO_NAMES then PROTO_NAMES[proto] else "other";
    if pname != "tcp" && pname != "udp" then pname
    else
      match RangeName(services, pname, remotePort)
      case Some(name) => name
      case None =>
        match RangeName(services, pname, clientPort)
        case Some(name) => name
        case None => pname + "-other"
  }

  // The first range for the protocol that holds the port.
  ghost predicate FirstRange(services: seq<ServiceRange>, proto: string, port: nat, i: nat) {
    && i < |services| && Covers(services[i], proto, port)
    && forall j :: 0 <= j < i ==> !Covers(services[j], proto, port)
  }

  ghost predicate Covers(r: ServiceRange, proto: string, port: nat) {
    r.proto == proto && r.lo <= port <= r.hi
  }

  lemma {:induction false} RangeNameIsFirst(services: seq<ServiceRange>, proto: string, port: nat)
    ensures forall i: nat :: FirstRange(services, proto, port, i) ==> RangeName(services, proto, port) == Some(services[i].name)
    ensures (forall r :: r in services ==> !Covers(r, proto, port)) ==> RangeName(services, proto, port) == None
  {
    if services != [] {
      RangeNameIsFirst(services[1..], proto, port);
      forall i: nat | FirstRange(services, proto, port, i)
        ensures RangeName(services, proto, port) == Some(services[i].name)
      {
        if i > 0 {
          assert !Covers(services[0], proto, port);
          assert FirstRange(services[1..], proto, port, i - 1) by {
            assert forall j :: 0 <= j < |services[1..]| ==> services[1..][j] == services[j + 1];
          }
        }
      }
      assert services[0] in services;
    }
  }

  // TCP (6) and UDP (17) are named by the first range that holds the remote port;
  // the client's port only counts when there is none. Any other protocol is its
  // own service.
  lemma RemotePortFirst(services: seq<ServiceRange>, remotePort: nat, clientPort: nat, proto: nat)
    ensures proto == 6 || proto == 17 ==>
              var name := if proto == 6 then "tcp" else "udp";
              && (forall i: nat :: FirstRange(services, name, remotePort, i) ==>
                    ServiceOf(services, proto, remotePort, clientPort) == services[i].name)
              && ((forall r :: r in services ==> !Covers(r, name, remotePort)) ==>
                    && (forall i: nat :: FirstRange(services, name, clientPort, i) ==>
                          ServiceOf(services, proto, remotePort, clientPort) == services[i].name)
                    && ((forall r :: r in services ==> !Covers(r, name, clientPort)) ==>
                          ServiceOf(services, proto, remotePort, clientPort) == name + "-other"))
    ensures proto != 6 && proto != 17 ==>
              ServiceOf(services, proto, remotePort, clientPort) ==
              if proto == 1 then "icmp" else if proto == 47 then "gre" else if proto == 50 then "esp"
              else if proto == 58 then "icmpv6" else "other"
  {
    var name := if proto == 6 then "tcp" else "udp";
    RangeNameIsFirst(services, name, remotePort);
    RangeNameIsFirst(services, name, clientPort);
    hide RangeName, FirstRange, Covers;
  }

  // ---- one record

  // A public-to-public record whose post-NAT destination is a LAN address is a download to it.
  predicate IsPreNatDownload(setup: Setup, c: Call) {
    !IsLan(setup, c.src) && !IsLan(setup, c.dst) && c.postNat.Some? && IsLan(setup, c.postNat.value)
  }

  function Destination(setup: Setup, c: Call): nat {
    if IsPreNatDownload(setup, c) then c.postNat.value else c.dst
  }

  // The counter a record is credited to, if it crosses the LAN's edge.
  function Credit(setup: Setup, t: AsnTable, c: Call): Option<Key>
    requires t.Aligned()
  {
    var dst := Destination(setup, c);
    if c.octets == 0 || IsLan(setup, c.src) == IsLan(setup, dst) then None
    else if IsLan(setup, c.src) then
      Some(Key(Transmit, c.src, LookupAsn(t, dst), ServiceOf(setup.services, c.proto, c.dport, c.sport)))
    else
      Some(Key(Receive, dst, LookupAsn(t, c.src), ServiceOf(setup.services, c.proto, c.sport, c.dport)))
  }

  // A download seen before NAT is undone counts as the same download seen after.
  lemma PreNatCreditsSame(setup: Setup, t: AsnTable, c: Call)
    requires t.Aligned() && IsPreNatDownload(setup, c)
    ensures Credit(setup, t, c) == Credit(setup, t, c.(dst := c.postNat.value, postNat := None))
    ensures c.octets > 0 ==> Credit(setup, t, c).Some? && Credit(setup, t, c).value.direction == Receive &&
                             Credit(setup, t, c).value.client == c.postNat.value
  {}

  ghost predicate InLan(setup: Setup, ip: nat) {
    exists i :: 0 <= i < |setup.lan| && setup.lan[i].first <= ip <= setup.lan[i].last
  }

  // A record between two public addresses counts as one to its post-NAT
  // destination, if that is in the LAN.
  ghost function Ends(setup: Setup, c: Call): (nat, nat) {
    (c.src, if !InLan(setup, c.src) && !InLan(setup, c.dst) && c.postNat.Some? && InLan(setup, c.postNat.value)
            then c.postNat.value else c.dst)
  }

  // A record with octets is credited iff exactly one of its ends is in the LAN.
  // The key names that end as the client, the direction, the network that holds
  // the other end, and the service at the other end's port.
  lemma CreditIsScanned(setup: Setup, t: AsnTable, c: Call)
    requires SortedDisjoint(t)
    ensures var (src, dst) := Ends(setup, c);
            && (Credit(setup, t, c).Some? <==> c.octets > 0 && InLan(setup, src) != InLan(setup, dst))
            && (Credit(setup, t, c).Some? ==>
                  Credit(setup, t, c).value ==
                  if InLan(setup, src) then
                    Key(Transmit, src, LinearScan(t, dst, 0), ServiceOf(setup.services, c.proto, c.dport, c.sport))
                  else
                    Key(Receive, dst, LinearScan(t, src, 0), ServiceOf(setup.services, c.proto, c.sport, c.dport)))
  {
    LookupIsScan(t, c.src);
    LookupIsScan(t, Destination(setup, c));
    InLanIs(setup, c.src);
    InLanIs(setup, c.dst);
    if c.postNat.Some? {
      InLanIs(setup, c.postNat.value);
    }
    hide IsLan, InLan, LinearScan, LookupAsn, ServiceOf;
  }

  lemma InLanIs(setup: Setup, ip: nat)
    ensures InLan(setup, ip) <==> IsLan(setup, ip)
  {
    if IsLan(setup, ip) {
      var n :| n in setup.lan && n.first <= ip <= n.last;
      var i :| 0 <= i < |setup.lan| && setup.lan[i] == n;
    }
  }

  function Reply(c: Call): Call {
    c.(src := c.dst, dst := c.src, sport := c.dport, dport := c.sport)
  }

  // A flow and its reply are credited to the same client, network and service,
  // in opposite directions.
  lemma RepliesShareKey(setup: Setup, t: AsnTable, c: Call)
    requires t.Aligned() && c.postNat == None
    ensures Credit(setup, t, c).Some? <==> Credit(setup, t, Reply(c)).Some?
    ensures Credit(setup, t, c).Some? ==>
              var key, back := Credit(setup, t, c).value, Credit(setup, t, Reply(c)).value;
              back == key.(direction := if key.direction == Transmit then Receive else Transmit)
  {}

  // ---- runs

  datatype Event = Flow(call: Call, now: real) | Render(now: real) | Load(table: AsnTable)

  datatype State = State(counters: Counters, table: AsnTable)

  const START := State(map[], AsnTable([], [], []))

  ghost predicate ValidRun(run: seq<Event>) {
    forall e :: e in run && e.Load? ==> e.table.Aligned()
  }

  predicate Stale(setup: Setup, c: Counter, now: real) {
    now - c.last > setup.ttl
  }

  function Fresh(setup: Setup, counters: Counters, now: real): Counters {
    map k | k in counters && !Stale(setup, counters[k], now) :: counters[k]
  }

  function StaleOnes(setup: Setup, counters: Counters, now: real): Counters {
    map k | k in counters && Stale(setup, counters[k], now) :: counters[k]
  }

  function Add(counters: Counters, key: Key, octets: nat, now: real): Counters {
    counters[key := Counter((if key in counters then counters[key].bytes else 0) + octets, now)]
  }

  function Step(setup: Setup, s: State, e: Event): State
    requires s.table.Aligned()
  {
    match e
    case Flow(c, now) =>
      (match Credit(setup, s.table, c)
       case None => s
       case Some(key) => s.(counters := Add(s.counters, key, c.octets, now)))
    case Render(now) => s.(counters := Fresh(setup, s.counters, now))
    case Load(table) => s.(table := table)
  }

  function Replay(setup: Setup, run: seq<Event>): (s: State)
    requires forall e :: e in run && e.Load? ==> e.table.Aligned()
    ensures s.table.Aligned()
  {
    if run == [] then START else Step(setup, Replay(setup, run[..|run| - 1]), run[|run| - 1])
  }

  // ---- conservation

  ghost function Total(m: Counters): nat {
    if m == map[] then 0
    else
      var k :| k in m;
      m[k].bytes + Total(m - {k})
  }

  lemma {:induction false} TotalAt(m: Counters, k: Key)
    requires k in m
    ensures Total(m) == m[k].bytes + Total(m - {k})
    decreases |m|
  {
    var j :| j in m && Total(m) == m[j].bytes + Total(m - {j});
    if j != k {
      TotalAt(m - {j}, k);
      TotalAt(m - {k}, j);
      assert m - {j} - {k} == m - {k} - {j};
    }
  }

  lemma TotalAdd(m: Counters, k: Key, octets: nat, now: real)
    ensures Total(Add(m, k, octets, now)) == Total(m) + octets
  {
    var m' := Add(m, k, octets, now);
    TotalAt(m', k);
    if k in m {
      TotalAt(m, k);
      assert m' - {k} == m - {k};
    } else {
      assert m' - {k} == m;
    }
  }

  lemma {:induction false} TotalSplit(setup: Setup, m: Counters, now: real)
    ensures Total(m) == Total(Fresh(setup, m, now)) + Total(StaleOnes(setup, m, now))
    decreases |m|
  {
    hide Stale;
    if m == map[] {
      assert Fresh(setup, m, now) == map[] && StaleOnes(setup, m, now) == map[];
    } else {
      var k :| k in m;
      TotalAt(m, k);
      TotalSplit(setup, m - {k}, now);
      SplitWithout(setup, m, k, now);
      if Stale(setup, m[k], now) {
        TotalAt(StaleOnes(setup, m, now), k);
      } else {
        TotalAt(Fresh(setup, m, now), k);
      }
    }
  }

  lemma SplitWithout(setup: Setup, m: Counters, k: Key, now: real)
    requires k in m
    ensures Stale(setup, m[k], now) ==>
              && StaleOnes(setup, m, now) - {k} == StaleOnes(setup, m - {k}, now)
              && Fresh(setup, m, now) == Fresh(setup, m - {k}, now)
    ensures !Stale(setup, m[k], now) ==>
              && Fresh(setup, m, now) - {k} == Fresh(setup, m - {k}, now)
              && StaleOnes(setup, m, now) == StaleOnes(setup, m - {k}, now)
  {}

  // Bytes that `render` has dropped so far.
  ghost function Expired(setup: Setup, run: seq<Event>): nat
    requires ValidRun(run)
  {
    if run == [] then 0
    else
      var before, e := run[..|run| - 1], run[|run| - 1];
      Expired(setup, before) +
      if e.Render? then Total(StaleOnes(setup, Replay(setup, before).counters, e.now)) else 0
  }

  // Exactly one endpoint in the LAN, after the post-NAT substitution.
  predicate CrossesEdge(setup: Setup, c: Call) {
    IsLan(setup, c.src) != IsLan(setup, Destination(setup, c))
  }

  // Octets of all records that cross the LAN's edge.
  function EdgeOctets(setup: Setup, run: seq<Event>): nat {
    if run == [] then 0
    else
      var e := run[|run| - 1];
      EdgeOctets(setup, run[..|run| - 1]) + if e.Flow? && CrossesEdge(setup, e.call) then e.call.octets else 0
  }

  // At every point of every run, what the counters hold plus what expired is what crossed the edge.
  lemma {:induction false} Conservation(setup: Setup, run: seq<Event>)
    requires ValidRun(run)
    ensures Total(Replay(setup, run).counters) + Expired(setup, run) == EdgeOctets(setup, run)
  {
    if run != [] {
      var before, e := run[..|run| - 1], run[|run| - 1];
      var s := Replay(setup, before);
      Conservation(setup, before);
      match e {
        case Flow(c, now) =>
          var key := Credit(setup, s.table, c);
          if key.Some? {
            TotalAdd(s.counters, key.value, c.octets, now);
          }
        case Render(now) =>
          TotalSplit(setup, s.counters, now);
        case Load(_) =>
      }
    }
  }

  // ---- the same, key by key

  function Held(counters: Counters, k: Key): nat {
    if k in counters then counters[k].bytes else 0
  }

  ghost function ExpiredOf(setup: Setup, run: seq<Event>, k: Key): nat
    requires ValidRun(run)
  {
    if run == [] then 0
    else
      var before, e := run[..|run| - 1], run[|run| - 1];
      ExpiredOf(setup, before, k) +
      if e.Render? then Held(StaleOnes(setup, Replay(setup, before).counters, e.now), k) else 0
  }

  // Octets of the records whose one credit was `k`.
  ghost function CreditedTo(setup: Setup, run: seq<Event>, k: Key): nat
    requires ValidRun(run)
  {
    if run == [] then 0
    else
      var before, e := run[..|run| - 1], run[|run| - 1];
      CreditedTo(setup, before, k) +
      if e.Flow? && Credit(setup, Replay(setup, before).table, e.call) == Some(k) then e.call.octets else 0
  }

  lemma {:induction false} KeyConservation(setup: Setup, run: seq<Event>, k: Key)
    requires ValidRun(run)
    ensures Held(Replay(setup, run).counters, k) + ExpiredOf(setup, run, k) == CreditedTo(setup, run, k)
  {
    if run != [] {
      KeyConservation(setup, run[..|run| - 1], k);
    }
  }

  // ---- how long a counter lives

  ghost predicate CreditsAt(setup: Setup, run: seq<Event>, i: nat, k: Key)
    requires ValidRun(run) && i < |run|
  {
    run[i].Flow? && Credit(setup, Replay(setup, run[..i]).table, run[i].call) == Some(k)
  }

  // The last record credited to `k`, so far.
  ghost function LastCredit(setup: Setup, run: seq<Event>, k: Key): (i: Option<nat>)
    requires ValidRun(run)
    ensures i.Some? ==> i.value < |run| && run[i.value].Flow?
  {
    if run == [] then None
    else if CreditsAt(setup, run, |run| - 1, k) then Some(|run| - 1)
    else LastCredit(setup, run[..|run| - 1], k)
  }

  // A counter is there iff it was ever credited and no rendering since its last
  // credit came more than the limit after it.
  lemma {:induction false} CounterLives(setup: Setup, run: seq<Event>, k: Key)
    requires ValidRun(run)
    ensures k in Replay(setup, run).counters <==>
            && LastCredit(setup, run, k).Some?
            && var at := LastCredit(setup, run, k).value;
               forall j :: at < j < |run| && run[j].Render? ==> run[j].now - run[at].now <= setup.ttl
    ensures k in Replay(setup, run).counters ==>
              Replay(setup, run).counters[k].last == run[LastCredit(setup, run, k).value].now
  {
    if run != [] {
      var before, e := run[..|run| - 1], run[|run| - 1];
      CounterLives(setup, before, k);
      assert forall j :: 0 <= j < |before| ==> before[j] == run[j];
      hide Credit;
    }
  }

  // LastCredit is the last.
  lemma {:induction false} LastCreditIsLast(setup: Setup, run: seq<Event>, k: Key, i: nat)
    requires ValidRun(run) && i < |run| && CreditsAt(setup, run, i, k)
    ensures LastCredit(setup, run, k).Some? && LastCredit(setup, run, k).value >= i
    ensures CreditsAt(setup, run, LastCredit(setup, run, k).value, k)
  {
    hide Credit;
    if !CreditsAt(setup, run, |run| - 1, k) {
      var before := run[..|run| - 1];
      assert before[..i] == run[..i];
      LastCreditIsLast(setup, before, k, i);
      var at := LastCredit(setup, before, k).value;
      assert before[..at] == run[..at];
    }
  }
}
