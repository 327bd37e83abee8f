// The site lease fence: the Job that fences a site's database clusters when the
// lease names the site and attests what it found. Every call to Kubernetes may
// fail, and others may change the clusters between any two calls.

module FenceJob {
  import opened Options

  // `primary` is spec.replica.primary, `fenced` whether the annotation is there.
  datatype Cluster = Cluster(primary: Option<string>, fenced: bool)

  // What one app's status entry says; anything unreadable is Garbled.
  datatype Entry = Garbled | Attested(lease: string, result: string, checked: int)

  type Status = map<string, Entry>

  const CLEAR := "clear"
  const ABSENT := "absent"
  const REPLICA := "replica"
  const FENCED := "fenced"
  const FENCING := "fencing"

  // Worst first.
  const RESULTS: seq<string> := [FENCING, FENCED, REPLICA, ABSENT]

  // A 404 is Missing, any other HTTP error Error; Lost is an exception the Job
  // does not catch (no connection, a malformed answer).
  datatype Answer<T> = Lost | Error | Missing | Found(value: T) {
    predicate Answered() {
      Missing? || Found?
    }
  }

  // How fencing one cluster or app ended.
  datatype Outcome = Crash | ApiError | Held(result: string)

  // How one app's turn went: a crash, no lease, another site's lease, an error of
  // the API, or its clusters all kept from writing.
  datatype Visit = Broken | Unread | Elsewhere(lease: string) | Errored | Fenced(result: string)

  // Ended by an exception while reading the apps, or in writing the status.
  datatype Exit = Success | Failure | CrashedReading | CrashedWriting

  // The cluster exists, is its own primary and is not fenced.
  predicate CanWrite(clusters: map<string, Cluster>, name: string, site: string) {
    name in clusters && clusters[name].primary in {None, Some(""), Some(site)} && !clusters[name].fenced
  }

  // The cluster names another site as its primary.
  predicate Follows(c: Cluster, site: string) {
    c.primary.Some? && c.primary.value != "" && c.primary.value != site
  }

  // What each result says of the cluster as it was read; only `fencing` could
  // still write, and was patched.
  ghost predicate Describes(result: string, seen: Answer<Cluster>, site: string) {
    && seen.Answered()
    && (result == ABSENT <==> seen.Missing?)
    && (result == REPLICA <==> seen.Found? && Follows(seen.value, site))
    && (result == FENCED <==> seen.Found? && !Follows(seen.value, site) && seen.value.fenced)
    && (result == FENCING <==> seen.Found? && !Follows(seen.value, site) && !seen.value.fenced)
  }

  // Its own primary and not fenced, as it was read.
  ghost predicate CouldWrite(seen: Answer<Cluster>, site: string) {
    && seen.Found? && !seen.value.fenced
    && (seen.value.primary == None || seen.value.primary == Some("") || seen.value.primary == Some(site))
  }

  function Rank(result: string): (r: nat)
    requires result in RESULTS
    ensures r < |RESULTS| && RESULTS[r] == result && (r == 0 <==> result == FENCING)
  {
    if result == FENCING then 0 else if result == FENCED then 1 else if result == REPLICA then 2 else 3
  }

  // Newly fenced is the worst, then fenced already, then a replica; absent only if all are.
  ghost predicate IsWorst(worst: string, results: seq<string>) {
    && results != [] && (forall r :: r in results ==> r in {"fencing", "fenced", "replica", "absent"})
    && worst == if "fencing" in results then "fencing" else if "fenced" in results then "fenced"
                else if "replica" in results then "replica" else "absent"
  }

  lemma WorstMore(worst: string, results: seq<string>, one: string)
    requires IsWorst(worst, results) && one in RESULTS
    ensures worst in RESULTS && IsWorst(if Rank(one) < Rank(worst) then one else worst, results + [one])
  {
    assert results[0] in results;
    assert worst in results;
    assert forall r :: r in results + [one] <==> r in results || r == one;
  }

  lemma WorstOne(one: string)
    requires one in RESULTS
    ensures IsWorst(one, [one])
  {}

  // ---- what a run writes

  // The entries of a run that read these leases, met an error of the API for
  // each app in `erred`, and during which each cluster in `stopped` was at some
  // moment unable to write.
  ghost predicate JobWrites(site: string, clusters: map<string, seq<string>>, leases: map<string, string>,
                            erred: set<string>, stopped: set<string>, checked: int, data: Status)
  {
    forall app :: app in data ==>
      && app in clusters && app in leases && app !in erred && data[app].Attested?
      && data[app].lease == leases[app] && data[app].checked == checked
      && (leases[app] != site ==> data[app].result == CLEAR)
      && (leases[app] == site ==> data[app].result in RESULTS && forall c :: c in clusters[app] ==> c in stopped)
  }

  // What a run leaves behind of its calls.
  datatype Trail = Trail(stopped: set<string>, patched: set<string>, refused: set<string>) {
    predicate Within(later: Trail) {
      stopped <= later.stopped && patched <= later.patched && refused <= later.refused
    }
  }

  // The cluster was as the result says, was stopped, and patched if it could write.
  ghost predicate Kept(site: string, t: Trail, name: string, result: string, seen: Answer<Cluster>) {
    Describes(result, seen, site) && name in t.stopped && (CouldWrite(seen, site) ==> name in t.patched)
  }

  // What the run found: its attestations, the apps that met an error of the API,
  // and of each of this site's apps the results and what was seen of its clusters.
  datatype Findings = Findings(data: Status, erred: set<string>, outcomes: map<string, seq<string>>,
                               sights: map<string, seq<Answer<Cluster>>>)

  const NONE := Findings(map[], {}, map[], map[])

  // The attestations rest on what was read and done: an app whose lease names the
  // site has the worst result of its clusters, all of them kept from writing; one
  // is left out only if its lease was not read or the API answered with an error.
  ghost predicate Grounded(site: string, owned: map<string, seq<string>>, leases: map<string, string>, t: Trail, checked: int, f: Findings) {
    && JobWrites(site, owned, leases, f.erred, t.stopped, checked, f.data)
    && f.data.Keys == leases.Keys - f.erred
    && (forall app :: app in f.data && leases[app] == site ==> WorstKept(site, owned, t, f, app))
    && (forall app :: app in f.erred ==> app in leases && leases[app] == site && app in owned && Refused(owned[app], t))
  }

  ghost predicate WorstKept(site: string, owned: map<string, seq<string>>, t: Trail, f: Findings, app: string) {
    && app in f.data && app in owned && app in f.outcomes && app in f.sights
    && |f.outcomes[app]| == |f.sights[app]| == |owned[app]|
    && f.data[app].Attested? && IsWorst(f.data[app].result, f.outcomes[app])
    && forall i :: 0 <= i < |owned[app]| ==> Kept(site, t, owned[app][i], f.outcomes[app][i], f.sights[app][i])
  }

  ghost predicate Refused(names: seq<string>, t: Trail) {
    exists n :: n in names && n in t.refused
  }

  // Each app once, and each with a cluster.
  ghost predicate Listed(apps: seq<string>, owned: map<string, seq<string>>) {
    && (forall app :: app in apps ==> app in owned && owned[app] != [])
    && forall i, j :: 0 <= i < j < |apps| ==> apps[i] != apps[j]
  }

  ghost function Named(apps: seq<string>): set<string> {
    set app | app in apps
  }

  lemma NamedNone(apps: seq<string>)
    ensures Named(apps[..0]) == {} && apps[..|apps|] == apps
  {}

  lemma NamedMore(apps: seq<string>, owned: map<string, seq<string>>, i: nat)
    requires i < |apps| && Listed(apps, owned)
    ensures apps[i] in owned && owned[apps[i]] != []
    ensures apps[i] in apps && apps[i] !in Named(apps[..i]) && Named(apps[..i]) <= Named(apps)
    ensures Named(apps[..i + 1]) == Named(apps[..i]) + {apps[i]} && Named(apps[..i + 1]) <= Named(apps)
  {
    assert apps[..i + 1] == apps[..i] + [apps[i]];
  }

  // The leases that were answered.
  ghost function LeasesOf(read: map<string, Answer<string>>): map<string, string> {
    map app | app in read && read[app].Found? :: read[app].value
  }

  lemma LeasesMore(before: map<string, Answer<string>>, after: map<string, Answer<string>>, app: string)
    requires app !in before && app in after && after == before[app := after[app]]
    ensures LeasesOf(after) == if after[app].Found? then LeasesOf(before)[app := after[app].value] else LeasesOf(before)
    ensures app !in LeasesOf(before) && after.Keys == before.Keys + {app}
  {}

  ghost predicate NoneFencing(data: Status) {
    forall app :: app in data ==> data[app].Attested? && data[app].result != FENCING
  }

  lemma GroundedMore(site: string, owned: map<string, seq<string>>, leases: map<string, string>, t: Trail, later: Trail,
                     checked: int, f: Findings)
    requires Grounded(site, owned, leases, t, checked, f) && t.Within(later)
    ensures Grounded(site, owned, leases, later, checked, f)
  {
    hide Describes, CouldWrite, IsWorst;
    assert forall app :: app in f.data && leases[app] == site ==> WorstKept(site, owned, t, f, app);
    forall app | app in f.erred ensures Refused(owned[app], later) {
      assert Refused(owned[app], t);
      var n :| n in owned[app] && n in t.refused;
    }
  }

  // What one app's turn adds to the attestations, and to all the findings.
  function Attesting(data: Status, site: string, app: string, visit: Visit, checked: int): Status {
    match visit
    case Elsewhere(lease) => data[app := Attested(lease, CLEAR, checked)]
    case Fenced(result) => data[app := Attested(site, result, checked)]
    case _ => data
  }

  ghost function Adding(f: Findings, site: string, app: string, visit: Visit, results: seq<string>, seen: seq<Answer<Cluster>>,
                        checked: int): Findings
  {
    Findings(Attesting(f.data, site, app, visit, checked), if visit.Errored? then f.erred + {app} else f.erred,
             if visit.Fenced? then f.outcomes[app := results] else f.outcomes,
             if visit.Fenced? then f.sights[app := seen] else f.sights)
  }

  // How a turn that did not crash relates to what was read and done.
  ghost predicate Turn(site: string, names: seq<string>, t: Trail, answer: Answer<string>, visit: Visit,
                       results: seq<string>, seen: seq<Answer<Cluster>>)
  {
    match visit
    case Broken => false
    case Unread => answer.Missing?
    case Elsewhere(lease) => answer == Found(lease) && lease != site
    case Errored => answer == Found(site) && Refused(names, t)
    case Fenced(result) =>
      && answer == Found(site) && result in RESULTS && |results| == |seen| == |names| && IsWorst(result, results)
      && forall i :: 0 <= i < |names| ==> Kept(site, t, names[i], results[i], seen[i])
  }

  lemma GroundedAdding(site: string, owned: map<string, seq<string>>, leases: map<string, string>, more: map<string, string>,
                       t: Trail, checked: int, f: Findings, app: string, answer: Answer<string>, visit: Visit,
                       results: seq<string>, seen: seq<Answer<Cluster>>)
    requires Grounded(site, owned, leases, t, checked, f) && app in owned && app !in leases
    requires Turn(site, owned[app], t, answer, visit, results, seen)
    requires more == if answer.Found? then leases[app := answer.value] else leases
    ensures var g := Adding(f, site, app, visit, results, seen, checked);
            && Grounded(site, owned, more, t, checked, g)
            && g.data == Attesting(f.data, site, app, visit, checked) && (g.erred == {} <==> f.erred == {} && !visit.Errored?)
            && (NoneFencing(g.data) <==> NoneFencing(f.data) && visit != Fenced(FENCING))
  {
    match visit
    case Unread =>
    case Elsewhere(lease) => GroundedClear(site, owned, leases, t, checked, f, app, lease);
    case Errored => GroundedErred(site, owned, leases, t, checked, f, app);
    case Fenced(result) => GroundedHeld(site, owned, leases, t, checked, f, app, result, results, seen);
  }

  // One more app whose lease names another site.
  lemma GroundedClear(site: string, owned: map<string, seq<string>>, leases: map<string, string>, t: Trail, checked: int,
                      f: Findings, app: string, lease: string)
    requires Grounded(site, owned, leases, t, checked, f) && app in owned && app !in leases && lease != site
    ensures var g := f.(data := f.data[app := Attested(lease, CLEAR, checked)]);
            Grounded(site, owned, leases[app := lease], t, checked, g) && (NoneFencing(g.data) <==> NoneFencing(f.data))
  {
    hide Kept, IsWorst, Refused, NoneFencing, WorstKept, JobWrites;
    var g := f.(data := f.data[app := Attested(lease, CLEAR, checked)]);
    ClearIsNotFencing(f.data, app, lease, checked);
    JobWritesClear(site, owned, leases, f.erred, t.stopped, checked, f.data, app, lease);
    forall a | a in g.data && leases[app := lease][a] == site ensures WorstKept(site, owned, t, g, a) {
      WorstKeptHas(site, owned, t, f, a);
      WorstKeptFrame(site, owned, t, f, g, a);
    }
  }

  lemma JobWritesClear(site: string, owned: map<string, seq<string>>, leases: map<string, string>, erred: set<string>,
                       stopped: set<string>, checked: int, data: Status, app: string, lease: string)
    requires JobWrites(site, owned, leases, erred, stopped, checked, data)
    requires app in owned && app !in leases && app !in erred && lease != site
    ensures JobWrites(site, owned, leases[app := lease], erred, stopped, checked, data[app := Attested(lease, CLEAR, checked)])
  {}

  lemma WorstKeptFrame(site: string, owned: map<string, seq<string>>, t: Trail, f: Findings, g: Findings, app: string)
    requires WorstKept(site, owned, t, f, app) && app in g.data && g.data[app] == f.data[app]
    requires app in g.outcomes && app in f.outcomes && g.outcomes[app] == f.outcomes[app]
    requires app in g.sights && app in f.sights && g.sights[app] == f.sights[app]
    ensures WorstKept(site, owned, t, g, app)
  {
    hide Kept, IsWorst;
  }

  lemma WorstKeptHas(site: string, owned: map<string, seq<string>>, t: Trail, f: Findings, app: string)
    requires WorstKept(site, owned, t, f, app)
    ensures app in f.outcomes && app in f.sights
  {}

  lemma ClearIsNotFencing(data: Status, app: string, lease: string, checked: int)
    requires app !in data
    ensures NoneFencing(data[app := Attested(lease, CLEAR, checked)]) <==> NoneFencing(data)
  {
    var more := data[app := Attested(lease, CLEAR, checked)];
    assert forall a :: a in data ==> more[a] == data[a];
  }

  // One more app of this site that met an error of the API.
  lemma GroundedErred(site: string, owned: map<string, seq<string>>, leases: map<string, string>, t: Trail, checked: int,
                      f: Findings, app: string)
    requires Grounded(site, owned, leases, t, checked, f) && app in owned && app !in leases && Refused(owned[app], t)
    ensures Grounded(site, owned, leases[app := site], t, checked, f.(erred := f.erred + {app}))
  {
    hide Kept, IsWorst, Refused;
    var g := f.(erred := f.erred + {app});
    forall a | a in g.data && leases[app := site][a] == site ensures WorstKept(site, owned, t, g, a) {
      assert a != app && WorstKept(site, owned, t, f, a);
    }
  }

  // One more app of this site, its clusters all kept from writing.
  lemma GroundedHeld(site: string, owned: map<string, seq<string>>, leases: map<string, string>, t: Trail, checked: int,
                     f: Findings, app: string, result: string, results: seq<string>, seen: seq<Answer<Cluster>>)
    requires Grounded(site, owned, leases, t, checked, f) && app in owned && app !in leases && result in RESULTS
    requires |results| == |seen| == |owned[app]| && IsWorst(result, results)
    requires forall i :: 0 <= i < |owned[app]| ==> Kept(site, t, owned[app][i], results[i], seen[i])
    ensures var g := Findings(f.data[app := Attested(site, result, checked)], f.erred, f.outcomes[app := results], f.sights[app := seen]);
            && Grounded(site, owned, leases[app := site], t, checked, g)
            && (NoneFencing(g.data) <==> NoneFencing(f.data) && result != FENCING)
  {
    hide Describes, CouldWrite, IsWorst, Refused;
    var g := Findings(f.data[app := Attested(site, result, checked)], f.erred, f.outcomes[app := results], f.sights[app := seen]);
    forall n | n in owned[app] ensures n in t.stopped {
      var i :| 0 <= i < |owned[app]| && owned[app][i] == n;
      assert Kept(site, t, owned[app][i], results[i], seen[i]);
    }
    forall a | a in g.data && leases[app := site][a] == site ensures WorstKept(site, owned, t, g, a) {
      assert a != app ==> WorstKept(site, owned, t, f, a);
    }
    assert forall a :: a in f.data ==> g.data[a] == f.data[a];
    assert g.data[app].result == result;
  }

  lemma NothingGrounded(site: string, owned: map<string, seq<string>>, t: Trail, checked: int)
    ensures Grounded(site, owned, map[], t, checked, NONE) && NoneFencing(map[])
  {}

  class Job {
    const site: string
    var clusters: map<string, Cluster>
    var status: Option<Status>       // the ConfigMap, if there is one

    // what happened in this run
    ghost var read: map<string, Answer<string>>  // the lease of each app asked for
    ghost var stopped: set<string>               // at some moment it could not write
    ghost var patched: set<string>               // its fence was patched
    ghost var refused: set<string>               // a call for it was answered by an error
    ghost var lost: bool                         // a connection was lost
    ghost var written: Option<Answer<Status>>    // the answer to the status patch

    ghost predicate Fresh()
      reads this
    {
      read == map[] && stopped == patched == refused == {} && !lost && written == None
    }

    constructor (site: string, clusters: map<string, Cluster>, status: Option<Status>)
      ensures this.site == site && this.clusters == clusters && this.status == status && Fresh()
    {
      this.site, this.clusters, this.status := site, clusters, status;
      read, stopped, patched, refused, lost, written := map[], {}, {}, {}, false, None;
    }

    // Whatever others do to the clusters meanwhile.
    method Others()
      modifies `clusters
    {
      clusters := *;
    }

    // The lease, Missing if it cannot be read.
    method Txt(name: string) returns (lease: Answer<string>)
      modifies `read, `lost
      ensures !lease.Error? && read == old(read)[name := lease] && lost == (old(lost) || lease.Lost?)
    {
      lease := *;
      if lease.Error? {
        lease := Missing;
      }
      read, lost := read[name := lease], lost || lease.Lost?;
    }

    method GetCluster(name: string) returns (r: Answer<Cluster>)
      modifies `clusters, `stopped, `refused, `lost
      ensures r.Found? ==> name in clusters && clusters[name] == r.value
      ensures r.Missing? ==> name !in clusters
      ensures stopped == old(stopped) + if r.Answered() && !CanWrite(clusters, name, site) then {name} else {}
      ensures refused == old(refused) + (if r.Error? then {name} else {}) && lost == (old(lost) || r.Lost?)
    {
      Others();
      var failed: bool, gone: bool := *, *;
      if gone {
        lost := true;
        return Lost;
      }
      if failed {
        refused := refused + {name};
        return Error;
      }
      r := if name in clusters then Found(clusters[name]) else Missing;
      if !CanWrite(clusters, name, site) {
        stopped := stopped + {name};
      }
    }

    // A failed patch may have been applied all the same; one of a cluster that
    // has gone meanwhile is answered like any other missing object.
    method PatchFence(name: string) returns (r: Answer<Cluster>)
      modifies `clusters, `stopped, `patched, `refused, `lost
      ensures r.Found? ==> name in clusters && clusters[name].fenced
      ensures r.Missing? ==> name !in clusters
      ensures stopped == old(stopped) + if r.Answered() then {name} else {}
      ensures patched == old(patched) + if r.Answered() then {name} else {}
      ensures refused == old(refused) + (if r.Error? then {name} else {}) && lost == (old(lost) || r.Lost?)
    {
      Others();
      var failed: bool, gone: bool, applied: bool := *, *, *;
      if name in clusters && (applied || !(failed || gone)) {
        clusters := clusters[name := clusters[name].(fenced := true)];
      }
      if gone {
        lost := true;
        return Lost;
      }
      if failed {
        refused := refused + {name};
        return Error;
      }
      r := if name in clusters then Found(clusters[name]) else Missing;
      stopped, patched := stopped + {name}, patched + {name};
    }

    method PatchStatus(data: Status) returns (r: Answer<Status>)
      modifies `status, `written, `lost
      ensures written == Some(r) && lost == (old(lost) || r.Lost?)
      ensures status == old(status) || (old(status).Some? && status == Some(old(status).value + data))
      ensures r.Found? ==> old(status).Some? && status == Some(old(status).value + data)
      ensures r.Missing? ==> status == old(status) == None
    {
      var failed: bool, gone: bool, applied: bool := *, *, *;
      if status.Some? && (applied || !(failed || gone)) {
        status := Some(status.value + data);
      }
      r := if gone then Lost else if failed then Error else if status.Some? then Found(status.value) else Missing;
      written, lost := Some(r), lost || gone;
    }

    ghost function Done(): Trail
      reads this
    {
      Trail(stopped, patched, refused)
    }

    // How the cluster is kept from writing, by what was `seen` of it.
    method Fence(name: string) returns (end: Outcome, ghost seen: Answer<Cluster>)
      modifies `clusters, `stopped, `patched, `refused, `lost
      ensures old(Done()).Within(Done()) && (!end.Crash? ==> lost == old(lost)) && (end.Crash? ==> lost)
      ensures end.ApiError? ==> name in refused
      ensures end.Held? ==> Describes(end.result, seen, site)
      ensures end.Held? ==> end.result in RESULTS && name in stopped && (end.result == FENCING ==> name in patched)
    {
      var c := GetCluster(name);
      seen := c;
      if !c.Answered() {
        return if c.Lost? then Crash else ApiError, seen;
      }
      if c.Missing? {
        return Held(ABSENT), seen;
      }
      var primary := if c.value.primary in {None, Some("")} then site else c.value.primary.value;
      if primary != site {
        return Held(REPLICA), seen;
      }
      if c.value.fenced {
        return Held(FENCED), seen;
      }
      var answer := PatchFence(name);
      return if answer.Answered() then Held(FENCING) else if answer.Lost? then Crash else ApiError, seen;
    }

    // The app's clusters in turn, up to the first error; the worst result.
    method FenceAll(names: seq<string>) returns (end: Outcome, newly: bool, ghost results: seq<string>, ghost sights: seq<Answer<Cluster>>)
      requires names != []
      modifies `clusters, `stopped, `patched, `refused, `lost
      ensures old(Done()).Within(Done()) && (!end.Crash? ==> lost == old(lost)) && (end.Crash? ==> lost)
      ensures end.ApiError? ==> Refused(names, Done())
      ensures end.Held? ==> |results| == |sights| == |names| && IsWorst(end.result, results)
      ensures end.Held? ==> forall i :: 0 <= i < |names| ==> Kept(site, Done(), names[i], results[i], sights[i])
      ensures end.Held? ==> end.result in RESULTS && (newly <==> end.result == FENCING)
    {
      hide IsWorst;
      newly, results, sights := false, [], [];
      end := ApiError;
      for i: nat := 0 to |names|
        invariant old(Done()).Within(Done()) && lost == old(lost)
        invariant (end.Held? <==> i > 0) && (end.Held? ==> end.result in RESULTS)
        invariant !end.Crash? && |results| == |sights| == i && (end.Held? ==> IsWorst(end.result, results))
        invariant forall j :: 0 <= j < i ==> Kept(site, Done(), names[j], results[j], sights[j])
        invariant newly <==> end == Held(FENCING)
      {
        var one, seen := Fence(names[i]);
        if !one.Held? {
          assert names[i] in names;
          return one, newly, results, sights;
        }
        if end.Held? {
          WorstMore(end.result, results, one.result);
        } else {
          WorstOne(one.result);
          assert results + [one.result] == [one.result];
        }
        if !end.Held? || Rank(one.result) < Rank(end.result) {
          end := one;
        }
        results, sights := results + [one.result], sights + [seen];
        newly := newly || one.result == FENCING;
      }
    }

    // One app, by its lease.
    method VisitApp(app: string, names: seq<string>)
      returns (visit: Visit, newly: bool, ghost results: seq<string>, ghost seen: seq<Answer<Cluster>>)
      requires names != [] && app !in read && !lost
      modifies `clusters, `read, `stopped, `patched, `refused, `lost
      ensures app in read && read == old(read)[app := read[app]] && old(Done()).Within(Done())
      ensures if visit.Broken? then lost else !lost && Turn(site, names, Done(), read[app], visit, results, seen)
      ensures newly <==> visit == Fenced(FENCING)
    {
      hide Refused, IsWorst, Kept;
      newly, results, seen := false, [], [];
      var lease := Txt(app);
      if lease.Lost? {
        return Broken, newly, results, seen;
      }
      if lease.Missing? {
        return Unread, newly, results, seen;
      }
      if lease.value != site {
        return Elsewhere(lease.value), newly, results, seen;
      }
      var end;
      end, newly, results, seen := FenceAll(names);
      match end
      case Crash => return Broken, false, results, seen;
      case ApiError => return Errored, false, results, seen;
      case Held(result) => return Fenced(result), newly, results, seen;
    }

    // The apps (the keys of `owned`, in some order).
    method VisitApps(apps: seq<string>, owned: map<string, seq<string>>, checked: int)
      returns (crashed: bool, newly: bool, failed: bool, attested: Status, ghost f: Findings)
      requires Listed(apps, owned)
      requires read == map[] && !lost
      modifies `clusters, `read, `stopped, `patched, `refused, `lost
      ensures read.Keys <= Named(apps) && (!crashed ==> read.Keys == Named(apps)) && crashed == lost
      ensures !crashed ==> Grounded(site, owned, LeasesOf(read), Done(), checked, f)
      ensures attested == f.data && (!failed <==> f.erred == {}) && (!newly <==> NoneFencing(attested))
    {
      crashed, newly, failed, attested, f := false, false, false, map[], NONE;
      NothingGrounded(site, owned, Done(), checked);
      assert LeasesOf(read) == map[];
      hide Grounded, NoneFencing, Turn, LeasesOf, Named, Attesting, Adding, Listed;
      NamedNone(apps);
      for i: nat := 0 to |apps|
        invariant !crashed && !lost && read.Keys == Named(apps[..i])
        invariant Grounded(site, owned, LeasesOf(read), Done(), checked, f)
        invariant attested == f.data && (!failed <==> f.erred == {}) && (!newly <==> NoneFencing(attested))
      {
        var app := apps[i];
        NamedMore(apps, owned, i);
        ghost var before, leases, readBefore := Done(), LeasesOf(read), read;
        var visit, fencedNow, results, seen := VisitApp(app, owned[app]);
        LeasesMore(readBefore, read, app);
        if visit.Broken? {
          crashed := true;
          return;
        }
        GroundedMore(site, owned, leases, before, Done(), checked, f);
        GroundedAdding(site, owned, leases, LeasesOf(read), Done(), checked, f, app, read[app], visit, results, seen);
        f := Adding(f, site, app, visit, results, seen, checked);
        newly, failed := newly || fencedNow, failed || visit.Errored?;
        attested := Attesting(attested, site, app, visit, checked);
      }
    }

    // One run. It fails when a cluster was newly fenced or an error of the API was
    // caught; `f` is what it found, and `f.data` what it attests.
    method RunOnce(apps: seq<string>, owned: map<string, seq<string>>, checked: int) returns (exit: Exit, ghost f: Findings)
      requires Listed(apps, owned)
      requires Fresh()
      modifies this
      ensures read.Keys <= Named(apps) && (exit != CrashedReading ==> read.Keys == Named(apps))
      ensures exit in {CrashedReading, CrashedWriting} <==> lost
      ensures exit == CrashedReading ==> status == old(status) && written == None && f == NONE
      ensures exit != CrashedReading ==> Grounded(site, owned, LeasesOf(read), Done(), checked, f)
      ensures exit != CrashedReading ==> (written == None <==> f.data == map[])
      ensures exit == CrashedWriting <==> written == Some(Lost)
      ensures status == old(status) || (old(status).Some? && status == Some(old(status).value + f.data))
      ensures written == None ==> status == old(status)
      ensures written.Some? && written.value.Found? ==> old(status).Some? && status == Some(old(status).value + f.data)
      ensures written == Some(Missing) ==> status == old(status) == None
      ensures exit == Success <==> !lost && f.erred == {} && written != Some(Error) && NoneFencing(f.data)
    {
      hide Grounded, NoneFencing, LeasesOf, Named, Listed;
      var crashed, newly, failed, attested;
      crashed, newly, failed, attested, f := VisitApps(apps, owned, checked);
      if crashed {
        return CrashedReading, NONE;
      }
      if attested != map[] {
        var r := PatchStatus(attested);
        if r.Lost? {
          return CrashedWriting, f;
        }
        if r.Error? {
          failed := true;
        }
      }
      exit := if newly || failed then Failure else Success;
    }
  }
}
