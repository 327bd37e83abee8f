// The peer evidence for the fence: each site's collector publishes its own fence
// attestations, and takes the other sites' as proof before it calls the fence
// prerequisite met. The whole system is a run of events over any number of sites.

module FenceEvidence {
  import opened FenceJob
  import opened Options

  // `probed` are the sites with a probe address; `owned` each site's clusters by app.
  datatype Config = Config(sites: seq<string>, probed: set<string>, owned: map<string, map<string, seq<string>>>)

  function Holders(sites: seq<string>): set<string> {
    (set s | s in sites) + {"none"}
  }

  function Peers(cfg: Config, self: string): set<string> {
    set s | s in cfg.sites && s != self && s in cfg.probed
  }

  const FENCE_RESULTS := {CLEAR, ABSENT, REPLICA, FENCED, FENCING}

  const OK := 1
  const FAILED := 3

  // ---- the collector of one site

  predicate Publishable(sites: seq<string>, e: Entry, now: int) {
    e.Attested? && e.lease in Holders(sites) && e.result in FENCE_RESULTS && e.checked <= now + 60
  }

  // One scrape's attestations.
  function PublishedNow(sites: seq<string>, apps: seq<string>, status: Option<Status>, now: int): Status {
    map app | status.Some? && app in apps && app in status.value && Publishable(sites, status.value[app], now) :: status.value[app]
  }

  // What the peers' Prometheus answered: when each app was checked there.
  type Answers = map<string, Option<map<string, int>>>

  predicate Fresh(answers: Answers, peer: string, app: string, now: int) {
    && peer in answers && answers[peer].Some? && app in answers[peer].value
    && -60 <= now - answers[peer].value[app] <= 300
  }

  // The fence prerequisite, if the lease can be read.
  function Judge(cfg: Config, self: string, app: string, now: int, lease: Option<string>, answers: Answers): Option<int> {
    if lease.None? || lease.value !in Holders(cfg.sites) then None
    else if lease.value == self then Some(FAILED)
    else if Peers(cfg, self) != {} && forall p :: p in Peers(cfg, self) ==> Fresh(answers, p, app, now) then Some(OK)
    else None
  }

  // ---- what it reports, spelled out

  ghost predicate ValidLease(cfg: Config, lease: Option<string>) {
    lease.Some? && (lease.value == "none" || exists i :: 0 <= i < |cfg.sites| && cfg.sites[i] == lease.value)
  }

  // Some other site has a probe address, and each that has one told of a check of
  // the app at most 300 seconds ago and at most 60 ahead.
  ghost predicate AllPeersTold(cfg: Config, self: string, app: string, now: int, answers: Answers) {
    && (exists i :: 0 <= i < |cfg.sites| && cfg.sites[i] != self && cfg.sites[i] in cfg.probed)
    && forall i :: 0 <= i < |cfg.sites| && cfg.sites[i] != self && cfg.sites[i] in cfg.probed ==>
         && cfg.sites[i] in answers && answers[cfg.sites[i]].Some? && app in answers[cfg.sites[i]].value
         && now - 300 <= answers[cfg.sites[i]].value[app] <= now + 60
  }

  // The fence prerequisite fails (3) iff a valid lease names this very site, is met
  // (1) iff it names another holder and every peer told, and else says nothing.
  lemma JudgeIs(cfg: Config, self: string, app: string, now: int, lease: Option<string>, answers: Answers)
    ensures Judge(cfg, self, app, now, lease, answers) == Some(3) <==> ValidLease(cfg, lease) && lease.value == self
    ensures Judge(cfg, self, app, now, lease, answers) == Some(1) <==>
            ValidLease(cfg, lease) && lease.value != self && AllPeersTold(cfg, self, app, now, answers)
    ensures Judge(cfg, self, app, now, lease, answers) in {None, Some(1), Some(3)}
  {
    ValidIsHolder(cfg, lease);
    var peers := Peers(cfg, self);
    assert forall i :: 0 <= i < |cfg.sites| && cfg.sites[i] != self && cfg.sites[i] in cfg.probed ==> cfg.sites[i] in peers;
    if peers != {} {
      var p :| p in peers;
      var i :| 0 <= i < |cfg.sites| && cfg.sites[i] == p;
    }
    if AllPeersTold(cfg, self, app, now, answers) {
      forall p | p in peers ensures Fresh(answers, p, app, now) {
        var i :| 0 <= i < |cfg.sites| && cfg.sites[i] == p;
      }
    }
  }

  lemma ValidIsHolder(cfg: Config, lease: Option<string>)
    ensures ValidLease(cfg, lease) <==> lease.Some? && lease.value in Holders(cfg.sites)
  {
    if lease.Some? && lease.value in Holders(cfg.sites) && lease.value != "none" {
      assert lease.value in cfg.sites;
    }
  }

  // An entry is published iff the status has it, its lease is valid, its result one
  // of the five and its time not more than 60 seconds ahead.
  lemma PublishedIs(cfg: Config, apps: seq<string>, status: Option<Status>, now: int, app: string)
    ensures app in PublishedNow(cfg.sites, apps, status, now) <==>
            && status.Some? && app in apps && app in status.value && status.value[app].Attested?
            && ValidLease(cfg, Some(status.value[app].lease)) && status.value[app].checked <= now + 60
            && status.value[app].result in {"clear", "absent", "replica", "fenced", "fencing"}
    ensures app in PublishedNow(cfg.sites, apps, status, now) ==>
              PublishedNow(cfg.sites, apps, status, now)[app] == status.value[app]
  {
    if status.Some? && app in status.value && status.value[app].Attested? {
      ValidIsHolder(cfg, Some(status.value[app].lease));
    }
  }

  class Collector {
    const cfg: Config
    const self: string
    var published: Status
    var states: map<string, int>

    constructor (cfg: Config, self: string)
      ensures this.cfg == cfg && this.self == self
    {
      this.cfg, this.self, published, states := cfg, self, map[], map[];
    }

    // Whether there are peers and all of them told in time.
    method AllFresh(peers: set<string>, app: string, now: int, answers: Answers) returns (told: bool)
      ensures told <==> peers != {} && forall p :: p in peers ==> Fresh(answers, p, app, now)
    {
      told := peers != {};
      var rest := peers;
      while rest != {}
        invariant rest <= peers
        invariant told <==> peers != {} && forall p :: p in peers - rest ==> Fresh(answers, p, app, now)
        decreases rest
      {
        var p :| p in rest;
        rest := rest - {p};
        told := told && Fresh(answers, p, app, now);
      }
    }

    // The part of one scrape that deals with the fence; the apps are distinct.
    method Recovery(apps: seq<string>, status: Option<Status>, now: int, answers: Answers, leases: map<string, Option<string>>)
      requires forall app :: app in apps ==> app in leases
      modifies this
      ensures published == PublishedNow(cfg.sites, apps, status, now)
      ensures forall app :: app in apps ==>
                match Judge(cfg, self, app, now, leases[app], answers)
                case None => app !in states
                case Some(v) => app in states && states[app] == v
      ensures forall app :: app in states ==> app in apps
    {
      published, states := map[], map[];
      for i: nat := 0 to |apps|
        invariant published == PublishedNow(cfg.sites, apps[..i], status, now) && states == map[]
      {
        var app := apps[i];
        assert apps[..i + 1] == apps[..i] + [app];
        if status.Some? && app in status.value && Publishable(cfg.sites, status.value[app], now) {
          published := published[app := status.value[app]];
        }
      }
      assert apps[..|apps|] == apps;
      var peers := Peers(cfg, self);
      hide PublishedNow, Publishable, Fresh;
      for i: nat := 0 to |apps|
        invariant published == PublishedNow(cfg.sites, apps, status, now)
        invariant forall app :: app in states ==> app in apps[..i]
        invariant forall app :: app in apps[..i] ==>
                    match Judge(cfg, self, app, now, leases[app], answers)
                    case None => app !in states
                    case Some(v) => app in states && states[app] == v
      {
        var app := apps[i];
        assert apps[..i + 1] == apps[..i] + [app];
        var lease := leases[app];
        var allFresh := AllFresh(peers, app, now, answers);
        if lease.Some? && lease.value in Holders(cfg.sites) {
          if lease.value == self {
            states := states[app := FAILED];
          } else if allFresh {
            states := states[app := OK];
          }
        }
      }
    }
  }

  // ---- the sites together

  // A site's ConfigMap, and every attestation its collector ever published.
  datatype Site = Site(status: Option<Status>, published: set<(string, Entry)>)

  // One attested app of one run of a site's Job.
  datatype JobRun = JobRun(site: string, app: string, entry: Entry, stopped: set<string>)

  datatype Judgement = Judgement(value: int, now: int, lease: string)

  datatype System = System(sites: map<string, Site>, runs: set<JobRun>, judged: map<(string, string), Judgement>)

  // Clocks are whatever the site says at that event.
  datatype Event =
    | JobRan(site: string, leases: map<string, string>, erred: set<string>, stopped: set<string>, checked: int,
             data: Status, applied: bool)
    | StatusCreated(site: string)
    | Scraped(site: string, apps: seq<string>, now: int)
    | Judged(site: string, app: string, now: int, lease: Option<string>, answers: Answers)

  ghost function Start(cfg: Config): System {
    System(map s | s in cfg.sites :: Site(None, {}), {}, map[])
  }

  // A peer's answer can only hold what that peer has published, at any time before.
  ghost predicate Answered(s: System, answers: Answers) {
    forall peer, app :: peer in answers && answers[peer].Some? && app in answers[peer].value ==>
      && peer in s.sites
      && exists e :: (app, e) in s.sites[peer].published && e.Attested? && e.checked == answers[peer].value[app]
  }

  ghost predicate Allowed(cfg: Config, s: System, e: Event) {
    e.site in s.sites &&
    match e
    case JobRan(site, leases, erred, stopped, checked, data, _) =>
      site in cfg.owned && JobWrites(site, cfg.owned[site], leases, erred, stopped, checked, data)
    case StatusCreated(_) => true
    case Scraped(_, _, _) => true
    case Judged(_, _, _, _, answers) => Answered(s, answers)
  }

  ghost function RunsOf(site: string, data: Status, stopped: set<string>): set<JobRun> {
    set app | app in data :: JobRun(site, app, data[app], stopped)
  }

  ghost function Pairs(published: Status): set<(string, Entry)> {
    set app | app in published :: (app, published[app])
  }

  ghost function Apply(cfg: Config, s: System, e: Event): System
    requires e.site in s.sites
  {
    var site := s.sites[e.site];
    match e
    case JobRan(_, _, _, stopped, _, data, applied) =>
      var now := if applied && site.status.Some? then site.(status := Some(site.status.value + data)) else site;
      s.(sites := s.sites[e.site := now], runs := s.runs + RunsOf(e.site, data, stopped))
    case StatusCreated(_) =>
      if site.status.Some? then s else s.(sites := s.sites[e.site := site.(status := Some(map[]))])
    case Scraped(_, apps, now) =>
      var more := Pairs(PublishedNow(cfg.sites, apps, site.status, now));
      s.(sites := s.sites[e.site := site.(published := site.published + more)])
    case Judged(_, app, now, lease, answers) =>
      match Judge(cfg, e.site, app, now, lease, answers)
      case None => s.(judged := s.judged - {(e.site, app)})
      case Some(v) => s.(judged := s.judged[(e.site, app) := Judgement(v, now, if lease.Some? then lease.value else "")])
  }

  // The system after these events, each allowed where it happened.
  ghost predicate Legal(cfg: Config, events: seq<Event>)
    decreases |events|, 0
  {
    events == [] || (Legal(cfg, events[..|events| - 1]) &&
                     Allowed(cfg, After(cfg, events[..|events| - 1]), events[|events| - 1]))
  }

  ghost function After(cfg: Config, events: seq<Event>): System
    requires Legal(cfg, events)
    decreases |events|, 1
  {
    if events == [] then Start(cfg)
    else Apply(cfg, After(cfg, events[..|events| - 1]), events[|events| - 1])
  }

  // ---- what an attestation is worth

  // The site's Job read this lease; if it named the site, each of its clusters
  // of the app was at some moment of that run unable to write.
  ghost predicate Truthful(cfg: Config, r: JobRun) {
    && r.site in cfg.owned && r.app in cfg.owned[r.site] && r.entry.Attested?
    && (r.entry.result == CLEAR <==> r.entry.lease != r.site)
    && (r.entry.lease == r.site ==> r.entry.result in RESULTS && forall c :: c in cfg.owned[r.site][r.app] ==> c in r.stopped)
  }

  ghost predicate FromRun(s: System, site: string, app: string, e: Entry) {
    exists r :: r in s.runs && r.site == site && r.app == app && r.entry == e
  }

  ghost predicate Backed(cfg: Config, s: System) {
    && (forall r :: r in s.runs ==> Truthful(cfg, r))
    && (forall site, app :: site in s.sites && s.sites[site].status.Some? && app in s.sites[site].status.value ==>
          FromRun(s, site, app, s.sites[site].status.value[app]))
    && (forall site, app, e :: site in s.sites && (app, e) in s.sites[site].published ==>
          FromRun(s, site, app, e) && e.Attested? && e.lease in Holders(cfg.sites))
  }

  // A peer's attestation of the app, made within the last five minutes by this
  // site's clock (or up to a minute ahead of it).
  ghost predicate PeerAttested(cfg: Config, s: System, peer: string, app: string, now: int) {
    exists r :: r in s.runs && r.site == peer && r.app == app && Truthful(cfg, r)
      && r.entry.lease in Holders(cfg.sites) && now - 300 <= r.entry.checked <= now + 60
  }

  ghost predicate Proven(cfg: Config, s: System, site: string, app: string, j: Judgement) {
    && j.lease in Holders(cfg.sites) && j.lease != site && Peers(cfg, site) != {}
    && forall peer :: peer in Peers(cfg, site) ==> PeerAttested(cfg, s, peer, app, j.now)
  }

  ghost predicate Evidence(cfg: Config, s: System) {
    forall site, app :: (site, app) in s.judged && s.judged[(site, app)].value == OK ==>
      Proven(cfg, s, site, app, s.judged[(site, app)])
  }

  lemma RunsKeep(cfg: Config, s: System, t: System)
    requires s.runs <= t.runs && Evidence(cfg, s) && t.judged == s.judged
    ensures Evidence(cfg, t)
    ensures forall site, app, e :: FromRun(s, site, app, e) ==> FromRun(t, site, app, e)
  {
    forall site, app | (site, app) in t.judged && t.judged[(site, app)].value == OK
      ensures Proven(cfg, t, site, app, t.judged[(site, app)])
    {
      var j := s.judged[(site, app)];
      assert Proven(cfg, s, site, app, j);
      forall peer | peer in Peers(cfg, site) ensures PeerAttested(cfg, t, peer, app, j.now) {
        assert PeerAttested(cfg, s, peer, app, j.now);
      }
    }
  }

  lemma JobIsTruthful(cfg: Config, s: System, e: Event)
    requires e.JobRan? && Allowed(cfg, s, e)
    ensures forall r :: r in RunsOf(e.site, e.data, e.stopped) ==> Truthful(cfg, r)
  {}

  lemma JobStep(cfg: Config, s: System, e: Event)
    requires e.JobRan? && Allowed(cfg, s, e) && Backed(cfg, s) && Evidence(cfg, s)
    ensures Backed(cfg, Apply(cfg, s, e)) && Evidence(cfg, Apply(cfg, s, e))
  {
    var t := Apply(cfg, s, e);
    JobIsTruthful(cfg, s, e);
    RunsKeep(cfg, s, t);
    hide Evidence, Truthful;
    forall site, app | site in t.sites && t.sites[site].status.Some? && app in t.sites[site].status.value
      ensures FromRun(t, site, app, t.sites[site].status.value[app])
    {
      if site == e.site && app in e.data && t.sites[site].status.value[app] == e.data[app] {
        assert JobRun(site, app, e.data[app], e.stopped) in t.runs;
      } else {
        assert FromRun(s, site, app, s.sites[site].status.value[app]);
      }
    }
  }

  lemma ScrapeStep(cfg: Config, s: System, e: Event)
    requires e.Scraped? && Allowed(cfg, s, e) && Backed(cfg, s) && Evidence(cfg, s)
    ensures Backed(cfg, Apply(cfg, s, e)) && Evidence(cfg, Apply(cfg, s, e))
  {
    var t := Apply(cfg, s, e);
    RunsKeep(cfg, s, t);
    hide Evidence, Truthful;
  }

  lemma FreshIsAttested(cfg: Config, s: System, answers: Answers, peer: string, app: string, now: int)
    requires Backed(cfg, s) && Answered(s, answers) && Fresh(answers, peer, app, now)
    ensures PeerAttested(cfg, s, peer, app, now)
  {
    var e :| (app, e) in s.sites[peer].published && e.Attested? && e.checked == answers[peer].value[app];
    assert FromRun(s, peer, app, e);
    var r :| r in s.runs && r.site == peer && r.app == app && r.entry == e;
    assert Truthful(cfg, r);
  }

  lemma JudgeStep(cfg: Config, s: System, e: Event)
    requires e.Judged? && Allowed(cfg, s, e) && Backed(cfg, s) && Evidence(cfg, s)
    ensures Backed(cfg, Apply(cfg, s, e)) && Evidence(cfg, Apply(cfg, s, e))
  {
    var t := Apply(cfg, s, e);
    hide Truthful, Answered;
    forall site, app | (site, app) in t.judged && t.judged[(site, app)].value == OK
      ensures Proven(cfg, t, site, app, t.judged[(site, app)])
    {
      var j := t.judged[(site, app)];
      if (site, app) == (e.site, e.app) {
        forall peer | peer in Peers(cfg, site) ensures PeerAttested(cfg, t, peer, app, j.now) {
          FreshIsAttested(cfg, s, e.answers, peer, app, e.now);
          assert t.runs == s.runs;
        }
      } else {
        assert Proven(cfg, s, site, app, j);
        forall peer | peer in Peers(cfg, site) ensures PeerAttested(cfg, t, peer, app, j.now) {
          assert PeerAttested(cfg, s, peer, app, j.now);
        }
      }
    }
  }

  // In every reachable state a fence prerequisite that is met rests on a fresh,
  // truthful attestation of every peer.
  lemma {:induction false} PrerequisiteIsProven(cfg: Config, events: seq<Event>)
    requires Legal(cfg, events)
    ensures Backed(cfg, After(cfg, events)) && Evidence(cfg, After(cfg, events))
  {
    if events != [] {
      var before, e := events[..|events| - 1], events[|events| - 1];
      PrerequisiteIsProven(cfg, before);
      var s := After(cfg, before);
      match e
      case JobRan(_, _, _, _, _, _, _) => JobStep(cfg, s, e);
      case StatusCreated(_) => RunsKeep(cfg, s, Apply(cfg, s, e));
      case Scraped(_, _, _) => ScrapeStep(cfg, s, e);
      case Judged(_, _, _, _, _) => JudgeStep(cfg, s, e);
    }
  }

  // ---- an attestation is only ever refreshed by a run that saw its lease

  ghost function EntryOf(s: System, site: string, app: string): Option<Entry> {
    if site in s.sites && s.sites[site].status.Some? && app in s.sites[site].status.value
    then Some(s.sites[site].status.value[app]) else None
  }

  // The run could not read the app's lease, or met an error of the API for it.
  predicate Blind(e: Event, site: string, app: string) {
    e.JobRan? && e.site == site ==> app !in e.leases || app in e.erred
  }

  // Through any stretch of a history in which every run of the site's Job was
  // blind to the app, its entry stays what it was.
  lemma {:induction false} UnattestedUnchanged(cfg: Config, before: seq<Event>, more: seq<Event>, site: string, app: string)
    requires Legal(cfg, before + more) && Legal(cfg, before)
    requires forall e :: e in more ==> Blind(e, site, app)
    ensures EntryOf(After(cfg, before + more), site, app) == EntryOf(After(cfg, before), site, app)
  {
    if more == [] {
      assert before + more == before;
    } else {
      var init, e := more[..|more| - 1], more[|more| - 1];
      assert (before + more)[..|before + more| - 1] == before + init && e in more;
      UnattestedUnchanged(cfg, before, init, site, app);
      BlindStep(cfg, After(cfg, before + init), e, site, app);
    }
  }

  lemma BlindStep(cfg: Config, s: System, e: Event, site: string, app: string)
    requires Allowed(cfg, s, e) && Blind(e, site, app)
    ensures EntryOf(Apply(cfg, s, e), site, app) == EntryOf(s, site, app)
  {}

  // ---- what a met prerequisite does and does not say of the peer's clusters

  // The collector never compares the attested lease with the current one: the
  // prerequisite can be met although no cluster of the peer was ever stopped.
  lemma NotMutualExclusion() returns (cfg: Config, events: seq<Event>)
    ensures Legal(cfg, events)
    ensures var s := After(cfg, events);
            ("b", "app") in s.judged && s.judged[("b", "app")] == Judgement(OK, 0, "a") && forall r :: r in s.runs ==> r.stopped == {}
  {
    cfg := Config(["a", "b"], {"a", "b"}, map["a" := map["app" := ["app-pg"]], "b" := map["app" := ["app-pg"]]]);
    var entry := Attested("b", CLEAR, 0);
    var e0 := StatusCreated("a");
    var e1 := JobRan("a", map["app" := "b"], {}, {}, 0, map["app" := entry], true);
    var e2 := Event.Scraped("a", ["app"], 0);
    var e3 := Judged("b", "app", 0, Some("a"), map["a" := Some(map["app" := 0])]);
    events := [] + [e0] + [e1] + [e2] + [e3];
    var s1, s2 := Apply(cfg, Start(cfg), e0), Apply(cfg, Apply(cfg, Start(cfg), e0), e1);
    LegalMore(cfg, [], e0);
    LegalMore(cfg, [e0], e1);
    var none: Status := map[];
    assert none + e1.data == map["app" := entry];
    assert s2.sites["a"].status == Some(map["app" := entry]);
    var s3 := Apply(cfg, s2, e2);
    LegalMore(cfg, [e0] + [e1], e2);
    assert "app" in PublishedNow(cfg.sites, ["app"], s2.sites["a"].status, 0);
    assert ("app", entry) in s3.sites["a"].published;
    assert Answered(s3, e3.answers);
    LegalMore(cfg, [e0] + [e1] + [e2], e3);
    assert Peers(cfg, "b") == {"a"};
  }

  // Each app of a site has clusters, and no two share one.
  ghost predicate OwnClusters(cfg: Config) {
    && (forall site, app :: site in cfg.owned && app in cfg.owned[site] ==> cfg.owned[site][app] != [])
    && (forall site, app, other, c ::
          (&& site in cfg.owned && app in cfg.owned[site] && other in cfg.owned[site]
           && c in cfg.owned[site][app] && c in cfg.owned[site][other]) ==> app == other)
  }

  // No cluster stopped but those the run had to stop.
  ghost function Least(cfg: Config, e: Event): Event {
    if !e.JobRan? || e.site !in cfg.owned then e
    else
      e.(stopped := set app, c | app in cfg.owned[e.site] && c in cfg.owned[e.site][app]
                                 && app in e.data && app in e.leases && e.leases[app] == e.site :: c)
  }

  ghost function LeastAll(cfg: Config, events: seq<Event>): (r: seq<Event>)
    ensures |r| == |events|
  {
    if events == [] then [] else LeastAll(cfg, events[..|events| - 1]) + [Least(cfg, events[|events| - 1])]
  }

  // Nobody can tell the two histories apart: same attestations, same judgements.
  ghost predicate SameSeen(s: System, t: System) {
    s.sites == t.sites && s.judged == t.judged
  }

  // Attested under another lease, none of the app's clusters was stopped.
  ghost predicate OnlyForced(cfg: Config, s: System) {
    forall r, c ::
      (&& r in s.runs && r.site in cfg.owned && r.app in cfg.owned[r.site]
       && c in cfg.owned[r.site][r.app] && c in r.stopped) ==> r.entry.Attested? && r.entry.lease == r.site
  }

  lemma LeastStep(cfg: Config, s: System, t: System, e: Event)
    requires OwnClusters(cfg) && Allowed(cfg, s, e) && SameSeen(s, t) && OnlyForced(cfg, t)
    requires forall site, app, x :: FromRun(s, site, app, x) ==> FromRun(t, site, app, x)
    ensures Allowed(cfg, t, Least(cfg, e))
    ensures var s', t' := Apply(cfg, s, e), Apply(cfg, t, Least(cfg, e));
            && SameSeen(s', t') && OnlyForced(cfg, t')
            && forall site, app, x :: FromRun(s', site, app, x) ==> FromRun(t', site, app, x)
  {
    var f := Least(cfg, e);
    assert Allowed(cfg, t, f);
    var s', t' := Apply(cfg, s, e), Apply(cfg, t, f);
    forall site, app, x | FromRun(s', site, app, x) ensures FromRun(t', site, app, x) {
      if FromRun(s, site, app, x) {
        var r :| r in t.runs && r.site == site && r.app == app && r.entry == x;
        assert r in t'.runs;
      } else {
        assert JobRun(site, app, x, f.stopped) in t'.runs;
      }
    }
  }

  lemma {:induction false} LeastIsLegal(cfg: Config, events: seq<Event>)
    requires OwnClusters(cfg) && Legal(cfg, events)
    ensures Legal(cfg, LeastAll(cfg, events))
    ensures var s, t := After(cfg, events), After(cfg, LeastAll(cfg, events));
            && SameSeen(s, t) && OnlyForced(cfg, t)
            && forall site, app, x :: FromRun(s, site, app, x) ==> FromRun(t, site, app, x)
  {
    if events != [] {
      var before, e := events[..|events| - 1], events[|events| - 1];
      LeastIsLegal(cfg, before);
      var least := LeastAll(cfg, before);
      LeastStep(cfg, After(cfg, before), After(cfg, least), e);
      LegalMore(cfg, least, Least(cfg, e));
    }
  }

  // The run that made this attestation stopped the app's clusters.
  ghost predicate Stopped(cfg: Config, s: System, peer: string, app: string, entry: Entry) {
    forall r :: r in s.runs && r.site == peer && r.app == app && r.entry == entry ==> StoppedBy(cfg, r)
  }

  ghost predicate StoppedBy(cfg: Config, r: JobRun) {
    r.site in cfg.owned && r.app in cfg.owned[r.site] && forall c :: c in cfg.owned[r.site][r.app] ==> c in r.stopped
  }

  // It did so in every history that looks the same.
  ghost predicate SurelyStopped(cfg: Config, s: System, peer: string, app: string, entry: Entry) {
    forall other :: Legal(cfg, other) && SameSeen(After(cfg, other), s) ==> Stopped(cfg, After(cfg, other), peer, app, entry)
  }

  // Behind a met prerequisite stands an attestation of each peer, and the peer's
  // clusters were stopped iff the lease it carries names the peer.
  lemma StoppedIffLeaseNamesPeer(cfg: Config, events: seq<Event>, site: string, app: string, peer: string)
    returns (entry: Entry)
    requires OwnClusters(cfg) && Legal(cfg, events)
    requires (site, app) in After(cfg, events).judged && After(cfg, events).judged[(site, app)].value == OK
    requires peer in Peers(cfg, site)
    ensures FromRun(After(cfg, events), peer, app, entry) && entry.Attested? && entry.lease in Holders(cfg.sites)
    ensures var now := After(cfg, events).judged[(site, app)].now; now - 300 <= entry.checked <= now + 60
    ensures SurelyStopped(cfg, After(cfg, events), peer, app, entry) <==> entry.lease == peer
  {
    var s := After(cfg, events);
    PrerequisiteIsProven(cfg, events);
    assert Proven(cfg, s, site, app, s.judged[(site, app)]);
    assert PeerAttested(cfg, s, peer, app, s.judged[(site, app)].now);
    var r :| r in s.runs && r.site == peer && r.app == app && Truthful(cfg, r)
      && r.entry.lease in Holders(cfg.sites)
      && s.judged[(site, app)].now - 300 <= r.entry.checked <= s.judged[(site, app)].now + 60;
    entry := r.entry;
    if entry.lease == peer {
      forall other | Legal(cfg, other) && SameSeen(After(cfg, other), s)
        ensures Stopped(cfg, After(cfg, other), peer, app, entry)
      {
        PrerequisiteIsProven(cfg, other);
        forall o | o in After(cfg, other).runs && o.site == peer && o.app == app && o.entry == entry
          ensures StoppedBy(cfg, o)
        {
          assert Truthful(cfg, o);
        }
      }
    } else {
      LeastIsLegal(cfg, events);
      var other := LeastAll(cfg, events);
      var t := After(cfg, other);
      assert FromRun(s, peer, app, entry);
      var o :| o in t.runs && o.site == peer && o.app == app && o.entry == entry;
      assert cfg.owned[peer][app][0] !in o.stopped;
      assert !StoppedBy(cfg, o) && !Stopped(cfg, t, peer, app, entry);
    }
  }

  lemma LegalMore(cfg: Config, events: seq<Event>, e: Event)
    requires Legal(cfg, events) && Allowed(cfg, After(cfg, events), e)
    ensures Legal(cfg, events + [e]) && After(cfg, events + [e]) == Apply(cfg, After(cfg, events), e)
  {
    assert (events + [e])[..|events|] == events;
  }
}
