// The phases of a whole run put together.

module MirrorRuns {
  import opened MirrorConvergence
  import opened MirrorSafety
  import opened MirrorSteps
  import opened MirrorStore
  import opened Options

  // ---- putting a run together

  lemma DroppedStep(s: State, t: State, u: State, sids: set<string>, m: string)
    requires Dropped(s, t, sids) && OursMarked(s) && m in s.ours && m !in sids && s.ours[m] in t.albums
    requires u == t.(albums := u.albums, log := u.log)
    requires u == t || (u.albums == t.albums - {s.ours[m]} && u.log == t.log + [DeleteAlbum(s.ours[m], t.albums[s.ours[m]].marker)])
    ensures Dropped(s, u, sids)
  {
    assert t.albums[s.ours[m]].marker == Some(m);
    forall i | i in s.albums && i !in u.albums
      ensures s.albums[i].marker.Some? && DeleteAlbum(i, s.albums[i].marker) in u.log
    {
      if i in t.albums {
        assert i == s.ours[m] && u.log[|t.log|] == DeleteAlbum(i, Some(m));
      } else {
        assert DeleteAlbum(i, s.albums[i].marker) in t.log;
      }
    }
  }

  // The listed albums synced (`l`), then the combined one (`c`).
  ghost predicate Gathered(r: State, l: State, c: State, scraped: seq<Source>, complete: bool) {
    && Progress(r, l, scraped) && Stepped(r, l, Sids(scraped)) && OnlyCombinedTouched(l, c)
    && l.desired <= c.albums[c.combined].members
    && (complete ==>
          c.albums[c.combined].members == AfterPlan(RawMembers(l, l.combined), SeenMembers(l, l.combined), l.mine, l.desired))
  }

  lemma ProgressWants(r: State, l: State, scraped: seq<Source>)
    requires Progress(r, l, scraped)
    ensures Linked(l) && Owned(l) && l.desired <= l.mine && l.combined == r.combined
    ensures l.combined in l.members && l.combined in l.albums && l.members[l.combined] <= l.albums[l.combined].members
  {
    hide Fulfilled, ExactAt, UnionOfWants, Untouched, Owned, Counted;
    assert Linked(l);
  }

  lemma CombinedGrew(l: State, c: State)
    requires OnlyCombinedTouched(l, c) && l.albums[l.combined].members <= c.albums[l.combined].members
    ensures CombinedKept(l, c)
  {}

  // What the combined album's turn left alone.
  lemma CombinedTouched(l: State, c: State)
    requires OnlyCombinedTouched(l, c)
    ensures l.combined in l.albums && l.combined in c.albums && c.albums.Keys == l.albums.Keys
    ensures forall i :: i in l.albums && i != l.combined ==> c.albums[i] == l.albums[i]
    ensures forall i :: i in l.albums ==> c.albums[i].marker == l.albums[i].marker
    ensures UniqueMarkers(l.albums) ==> UniqueMarkers(c.albums)
  {}

  lemma NoneNewCombined(r: State, l: State, sids: set<string>)
    requires Stepped(r, l, sids) && COMBINED !in sids
    ensures forall i :: i in l.albums && i !in r.albums ==> l.albums[i].marker != Some(COMBINED)
  {
    hide Grown, Syncing, LosesOnlyOwn, Unread, Counted;
  }

  lemma CombinedKeptTransitive(s: State, t: State, u: State, sids: set<string>)
    requires CombinedKept(s, t) && CombinedKept(t, u) && Stepped(s, t, sids)
    ensures CombinedKept(s, u)
  {
    hide Grown, Syncing, LosesOnlyOwn, Unread;
  }

  lemma OrphansStored(c: State, d: State, sids: set<string>)
    requires Owned(c) && Dropped(c, d, sids)
    ensures forall a :: Orphan(d, a) ==> a in d.assets
  {}

  lemma ScrapedSids(readings: seq<Reading>)
    requires forall r :: r in readings && r.Got? ==> r.sid != COMBINED
    ensures COMBINED !in Sids(Scraped(readings))
  {
    if readings != [] {
      ScrapedSids(readings[..|readings| - 1]);
    }
  }

  lemma GatheredLinks(r: State, l: State, c: State, scraped: seq<Source>, complete: bool)
    requires Gathered(r, l, c, scraped, complete)
    ensures OursMarked(c) && Owned(c)
  {
    hide Fulfilled, ExactAt, UnionOfWants, Untouched, Counted, Stepped;
    assert Linked(l) && Owned(l);
  }

  lemma OrphansOwn(c: State, d: State, sids: set<string>, a: nat)
    requires Owned(c) && Dropped(c, d, sids) && Orphan(d, a)
    ensures a in d.assets && d.assets[a].keys.Some? && !Foreign(d.albums, a)
  {}

  lemma CleanedSafely(google: map<string, Content>, s: State, r: State, l: State, c: State, d: State, e: State,
                      part: set<nat>, readings: seq<Reading>)
    requires Starting(s) && Sound(google, s.assets) && Complete(readings)
    requires OnlyCombinedNew(s, r) && ReadOf(s, r) && Gathered(r, l, c, Scraped(readings), true)
    requires Calm(s, c, Scraped(readings), true) && Dropped(c, d, Sids(Scraped(readings))) && Owned(c) && Sound(google, c.assets)
    requires forall a :: a in part ==> Orphan(d, a)
    requires (e == d && part == {}) || TrashedPart(d, e, part)
    ensures Safe(s, e, readings) && Sound(google, e.assets)
  {
    var scraped := Scraped(readings);
    DroppedIsSafe(s, c, d, readings);
    DroppedFrame(c, d, Sids(scraped));
    SoundAnyTrash(google, d, e, part);
    forall a | a in part
      ensures a in d.assets && d.assets[a].keys.Some? && !Foreign(d.albums, a) && !StillListed(s, scraped, a)
    {
      hide *;
      OrphansOwn(c, d, Sids(scraped), a);
      GatheredSteps(r, l, c, scraped, true);
      OrphanNotListed(google, s, r, l, c, d, scraped, a);
    }
    if e != d {
      NoTrashYet(s, c, d, scraped);
      hide *;
      TrashIsSafe(s, d, e, readings, part);
    }
  }

  lemma GatheredSteps(r: State, l: State, c: State, scraped: seq<Source>, complete: bool)
    requires Gathered(r, l, c, scraped, complete)
    ensures Progress(r, l, scraped) && Stepped(r, l, Sids(scraped)) && OnlyCombinedTouched(l, c)
  {}

  lemma NoTrashYet(s: State, c: State, d: State, scraped: seq<Source>)
    requires Starting(s) && Calm(s, c, scraped, true) && Dropped(c, d, Sids(scraped))
    ensures forall n :: 0 <= n < |d.log| ==> !d.log[n].Trash?
  {
    hide LosesOnlyOwn, Grown, CombinedKept, ListedKept, NewNeeded, Sids;
    assert forall n :: 0 <= n < |c.log| ==> d.log[n] == c.log[n];
  }

  lemma SoundAnyTrash(google: map<string, Content>, d: State, e: State, part: set<nat>)
    requires Sound(google, d.assets) && (e == d || TrashedPart(d, e, part))
    ensures Sound(google, e.assets)
  {
    assert forall x :: x in e.assets ==> x in d.assets && e.assets[x].content == d.assets[x].content && e.assets[x].keys == d.assets[x].keys;
  }

  lemma RunConverged(google: map<string, Content>, s: State, r: State, l: State, c: State, d: State, e: State,
                     part: set<nat>, scraped: seq<Source>)
    requires e.errors == e.deferred == 0 && UniqueMarkers(s.albums) && UniqueMarkers(e.albums) && MembersStored(s.assets, s.albums)
    requires OnlyCombinedNew(s, r) && ReadOf(s, r) && Gathered(r, l, c, scraped, true)
    requires Distinct(scraped) && COMBINED !in Sids(scraped)
    requires Dropped(c, d, Sids(scraped)) && Sound(google, c.assets)
    requires forall m :: m in d.ours && m !in Sids(scraped) ==> d.ours[m] !in d.albums
    requires forall a :: a in part <==> Orphan(d, a)
    requires (e == d && part == {}) || TrashedPart(d, e, part)
    ensures Mirrored(google, e.assets, e.albums, scraped) <==>
            NoRevival(google, s.assets, s.albums, scraped) && StrangersListed(google, s.assets, s.albums, scraped)
    ensures MembersStored(e.assets, e.albums) && NoneWaiting(google, e.assets, scraped) && StrangersWere(google, s, e, scraped)
  {
    hide *;
    ReadAssets(s, r);
    ReadHidden(s, r);
    DroppedFrame(c, d, Sids(scraped));
    GatheredExactly(s, r, l, c, scraped);
    TrashIsMap(d, e, part);
    RunCompleted(google, s, r, l, c, d, e, part, scraped);
    Converged(google, s, r, l, c, d, e, part, scraped);
  }

  lemma ReadAssets(s: State, r: State)
    requires ReadOf(s, r)
    ensures r.assets == s.assets && Linked(r)
  {}

  lemma RunCompleted(google: map<string, Content>, s: State, r: State, l: State, c: State, d: State, e: State,
                     part: set<nat>, scraped: seq<Source>)
    requires e.errors == e.deferred == 0 && UniqueMarkers(s.albums) && UniqueMarkers(e.albums) && MembersStored(s.assets, s.albums)
    requires OnlyCombinedNew(s, r) && ReadOf(s, r) && r.assets == s.assets && HiddenTrashed(r) && Progress(r, l, scraped)
    requires Stepped(r, l, Sids(scraped)) && Counted(r, l)
    requires OnlyCombinedTouched(l, c) && c.albums[c.combined].members == Hidden(r, r.combined) + Strangers(r, r.combined) + l.desired
    requires Dropped(c, d, Sids(scraped)) && d == c.(albums := d.albums, log := d.log)
    requires forall m :: m in d.ours && m !in Sids(scraped) ==> d.ours[m] !in d.albums
    requires forall a :: a in part <==> Orphan(d, a)
    requires Sound(google, c.assets) && e.albums == d.albums && ((e == d && part == {}) || TrashedPart(d, e, part))
    requires e.assets == map a | a in d.assets :: if a in part then d.assets[a].(trashed := true) else d.assets[a]
    ensures Completed(google, s, r, l, c, d, e, part, scraped)
  {
    hide Sound, UniqueMarkers, MembersStored, Dropped, ReadOf, OnlyCombinedNew, Stepped, Orphan, Progress, Sids, HiddenTrashed, Hidden, Strangers;
  }

  lemma GatheredExactly(s: State, r: State, l: State, c: State, scraped: seq<Source>)
    requires ReadOf(s, r) && Gathered(r, l, c, scraped, true) && COMBINED !in Sids(scraped)
    ensures Progress(r, l, scraped) && Stepped(r, l, Sids(scraped)) && OnlyCombinedTouched(l, c) && Counted(r, l)
    ensures c.albums[c.combined].members == Hidden(r, r.combined) + Strangers(r, r.combined) + l.desired
  {
    hide Grown, Syncing, LosesOnlyOwn, Unread, Owned, Fulfilled, ExactAt, UnionOfWants, Counted, Sids, Progress, Stepped, AfterPlan,
      RawMembers, SeenMembers, Hidden, Strangers, ReadOf;
    SteppedCounts(r, l, Sids(scraped));
    ProgressFrame(r, l, scraped);
    SeenWithin(s, r, r.combined);
    CombinedAsRead(s, r, l, scraped);
    PlanLeaves(r, r.combined, l.desired, l.desired);
    StrangersAnyway(Strangers(r, r.combined), l.desired);
  }

  lemma StrangersAnyway(strangers: set<nat>, desired: set<nat>)
    ensures forall m: set<nat> :: m + desired + (strangers - desired) == m + strangers + desired
  {}

  lemma CombinedAsRead(s: State, r: State, l: State, scraped: seq<Source>)
    requires ReadOf(s, r) && Progress(r, l, scraped) && Stepped(r, l, Sids(scraped)) && COMBINED !in Sids(scraped)
    ensures l.combined == r.combined
    ensures SeenMembers(l, r.combined) == SeenMembers(r, r.combined) && RawMembers(l, r.combined) == RawMembers(r, r.combined)
  {
    hide Grown, Syncing, LosesOnlyOwn, Unread, Owned, Fulfilled, ExactAt, UnionOfWants, Counted, Sids, KeysRead, SeenMembers;
  }

  // The albums a listed marker leads to are not touched after their sync.
  lemma ListedStay(r: State, l: State, c: State, d: State, scraped: seq<Source>)
    requires Progress(r, l, scraped) && OnlyCombinedTouched(l, c) && COMBINED !in Sids(scraped)
    requires d == c || Dropped(c, d, Sids(scraped))
    ensures forall i :: i in l.albums && l.albums[i].marker.Some? && l.albums[i].marker.value in Sids(scraped) ==>
              i in d.albums && d.albums[i].members == l.albums[i].members
  {
    hide Owned, Fulfilled, ExactAt, UnionOfWants, Untouched, Counted, Sids;
    assert Linked(l);
  }

  // The loss of a run that went through, with or without its clean-up.
  lemma RunLosesExactly(google: map<string, Content>, s: State, r: State, l: State, c: State, d: State, e: State, scraped: seq<Source>)
    requires Sound(google, c.assets) && UniqueMarkers(s.albums) && OnlyCombinedNew(s, r) && ReadOf(s, r)
    requires Progress(r, l, scraped) && Stepped(r, l, Sids(scraped)) && OnlyCombinedTouched(l, c)
    requires l.missed == r.missed && COMBINED !in Sids(scraped)
    requires (d == c || Dropped(c, d, Sids(scraped))) && e.albums == d.albums
    ensures ExactLoss(google, s, e, scraped)
  {
    hide *;
    ListedStay(r, l, c, d, scraped);
    SteppedGrows(r, l, Sids(scraped));
    TouchedFrame(l, c);
    LossIsExact(google, s, r, l, e, scraped);
  }

  // The same in terms of the run's start `first` and end.
  lemma LossByEnd(google: map<string, Content>, first: State, s: State, r: State, l: State, c: State, d: State, e: State,
                  scraped: seq<Source>, complete: bool)
    requires Sound(google, c.assets) && OnlyCombinedNew(s, r) && ReadOf(s, r) && Gathered(r, l, c, scraped, complete)
    requires first.assets == s.assets && first.albums == s.albums && s.missed == 0 && COMBINED !in Sids(scraped)
    requires (d == c || Dropped(c, d, Sids(scraped))) && e.albums == d.albums && e.missed == c.missed
    ensures e.missed == 0 && UniqueMarkers(s.albums) ==> ExactLoss(google, first, e, scraped)
  {
    hide *;
    GatheredSteps(r, l, c, scraped, complete);
    SteppedCounts(r, l, Sids(scraped));
    MissedNone(r, l);
    TouchedFrame(l, c);
    ReadFacts(s, r);
    if e.missed == 0 && UniqueMarkers(s.albums) {
      RunLosesExactly(google, s, r, l, c, d, e, scraped);
      ExactLossFrame(google, first, s, e, scraped);
    }
  }

  lemma MissedNone(r: State, l: State)
    requires Counted(r, l)
    ensures l.missed >= r.missed
  {}

  lemma CountedFrame(r: State, l: State, c: State)
    requires Counted(r, l) && c.missed == l.missed && c.errors == l.errors && c.deferred == l.deferred
    ensures Counted(r, c)
  {}

  lemma ExactLossFrame(google: map<string, Content>, first: State, s: State, e: State, scraped: seq<Source>)
    requires ExactLoss(google, s, e, scraped) && first.assets == s.assets && first.albums == s.albums
    ensures ExactLoss(google, first, e, scraped)
  {
    hide Pictured, PhotoSet;
    forall d, i: nat, a: nat | d in scraped && OwnMember(first, d.sid, i, a) ensures StaysIffListed(google, first, e, d, i, a) {
      assert OwnMember(s, d.sid, i, a) && StaysIffListed(google, s, e, d, i, a);
    }
  }

  // Neither the clean-up nor the trash touches a counter or gives an album a marker.
  lemma CleanedMarkers(c: State, d: State, e: State, sids: set<string>, part: set<nat>)
    requires Dropped(c, d, sids) && ((e == d && part == {}) || TrashedPart(d, e, part))
    ensures e.errors == c.errors && e.deferred == c.deferred && e.missed == c.missed && e.albums == d.albums
    ensures UniqueMarkers(c.albums) ==> UniqueMarkers(e.albums)
  {}

  lemma NoOrphans(google: map<string, Content>, s: State, r: State, c: State, scraped: seq<Source>)
    requires Mirrored(google, s.assets, s.albums, scraped) && OnlyCombinedNew(s, r) && ReadOf(s, r) && r.assets == s.assets
    requires COMBINED !in Sids(scraped) && c == r.(desired := KnownAll(r.byKey, scraped), wants := c.wants)
    ensures forall a :: !Orphan(c, a)
  {
    hide *;
    forall a ensures !Orphan(c, a) {
      NothingToTrash(google, s, r, c, scraped, a);
    }
  }

  lemma TrashIsMap(d: State, e: State, part: set<nat>)
    requires (e == d && part == {}) || TrashedPart(d, e, part)
    ensures e.albums == d.albums
    ensures e.assets == map a | a in d.assets :: if a in part then d.assets[a].(trashed := true) else d.assets[a]
  {}

  // Everything read, the albums synced, nothing deleted so far.
  ghost predicate ReadyToDelete(google: map<string, Content>, s: State, r: State, l: State, c: State, readings: seq<Reading>) {
    var scraped := Scraped(readings);
    && Starting(s) && Sound(google, s.assets) && Sound(google, c.assets) && OnlyCombinedNew(s, r) && ReadOf(s, r)
    && Gathered(r, l, c, scraped, Complete(readings)) && Calm(s, c, scraped, Complete(readings))
    && Distinct(scraped) && COMBINED !in Sids(scraped)
  }

  lemma SyncedReady(google: map<string, Content>, s: State, r: State, l: State, c: State, readings: seq<Reading>)
    requires Starting(s) && Sound(google, s.assets) && Sound(google, c.assets) && OnlyCombinedNew(s, r) && ReadOf(s, r)
    requires Gathered(r, l, c, Scraped(readings), Complete(readings)) && Calm(s, c, Scraped(readings), Complete(readings))
    requires Distinct(Scraped(readings)) && COMBINED !in Sids(Scraped(readings))
    ensures ReadyToDelete(google, s, r, l, c, readings) && Counted(r, c)
  {
    hide Starting, Sound, OnlyCombinedNew, ReadOf, Calm, Distinct, Sids, Scraped, Complete, Counted, Gathered;
    GatheredSteps(r, l, c, Scraped(readings), Complete(readings));
    SteppedCounts(r, l, Sids(Scraped(readings)));
    TouchedFrame(l, c);
    CountedFrame(r, l, c);
  }

  lemma ReadyFacts(google: map<string, Content>, s: State, r: State, l: State, c: State, readings: seq<Reading>)
    requires ReadyToDelete(google, s, r, l, c, readings)
    ensures OursMarked(c) && Owned(c)
  {
    hide Starting, Sound, OnlyCombinedNew, ReadOf, Calm, Distinct, Sids, Scraped, Complete, Gathered, OursMarked, Owned;
    GatheredLinks(r, l, c, Scraped(readings), Complete(readings));
  }

  // The end of a run that could not read the whole list.
  lemma EndedIncomplete(google: map<string, Content>, first: State, s: State, r: State, l: State, c: State, e: State,
                        readings: seq<Reading>)
    requires ReadyToDelete(google, s, r, l, c, readings) && Safe(first, c, readings) && e == c.(errors := e.errors)
    requires first.assets == s.assets && first.albums == s.albums
    ensures Safe(first, e, readings)
    ensures e.missed == 0 && UniqueMarkers(first.albums) ==> ExactLoss(google, first, e, Scraped(readings))
  {
    hide Sound, OnlyCombinedNew, ReadOf, Calm, Distinct, Sids, Scraped, Complete, Gathered, Safe, UniqueMarkers, ExactLoss;
    SafeFrame(first, first, c, e, readings);
    LossByEnd(google, first, s, r, l, c, c, e, Scraped(readings), Complete(readings));
  }

  // The end of any other run, whether or not the clean-up went through.
  lemma CleanedUp(google: map<string, Content>, first: State, s: State, r: State, l: State, c: State, d: State, e: State,
                  part: set<nat>, readings: seq<Reading>)
    requires ReadyToDelete(google, s, r, l, c, readings) && Complete(readings)
    requires first.assets == s.assets && first.albums == s.albums
    requires Dropped(c, d, Sids(Scraped(readings))) && ((e == d && part == {}) || TrashedPart(d, e, part))
    requires forall a :: a in part ==> Orphan(d, a)
    ensures Sound(google, e.assets) && Safe(first, e, readings)
    ensures e.missed == 0 && UniqueMarkers(first.albums) ==> ExactLoss(google, first, e, Scraped(readings))
    ensures e.errors == c.errors && e.deferred == c.deferred && e.missed == c.missed
    ensures UniqueMarkers(c.albums) ==> UniqueMarkers(e.albums)
  {
    ReadyFacts(google, s, r, l, c, readings);
    hide Sound, OnlyCombinedNew, ReadOf, Calm, Distinct, Sids, Scraped, Complete, Gathered, Safe, UniqueMarkers, ExactLoss, Dropped,
      TrashedPart, Orphan, Owned, OursMarked;
    CleanedSafely(google, s, r, l, c, d, e, part, readings);
    SafeFrame(first, s, e, e, readings);
    CleanedMarkers(c, d, e, Sids(Scraped(readings)), part);
    LossByEnd(google, first, s, r, l, c, d, e, Scraped(readings), true);
  }

  lemma CleanedConverged(google: map<string, Content>, first: State, s: State, r: State, l: State, c: State, d: State, e: State,
                         part: set<nat>, readings: seq<Reading>)
    requires ReadyToDelete(google, s, r, l, c, readings) && Complete(readings)
    requires first.assets == s.assets && first.albums == s.albums
    requires Dropped(c, d, Sids(Scraped(readings))) && ((e == d && part == {}) || TrashedPart(d, e, part))
    requires forall a :: a in part <==> Orphan(d, a)
    requires forall m :: m in d.ours && m !in Sids(Scraped(readings)) ==> d.ours[m] !in d.albums
    requires e.errors == e.deferred == 0 && UniqueMarkers(s.albums) && UniqueMarkers(e.albums) && MembersStored(s.assets, s.albums)
    ensures var scraped := Scraped(readings);
            && (Mirrored(google, e.assets, e.albums, scraped) <==>
                  NoRevival(google, first.assets, first.albums, scraped)
                  && StrangersListed(google, first.assets, first.albums, scraped))
            && MembersStored(e.assets, e.albums) && NoneWaiting(google, e.assets, scraped) && StrangersWere(google, first, e, scraped)
  {
    hide Starting, Sound, OnlyCombinedNew, ReadOf, Calm, Distinct, Sids, Scraped, Complete, Gathered, UniqueMarkers, Dropped, TrashedPart,
      Orphan, MembersStored, Mirrored, NoRevival, NoneWaiting, StrangersListed, Stranger;
    RunConverged(google, s, r, l, c, d, e, part, Scraped(readings));
  }

  // ---- an account that takes two runs

  lemma TwoReadings(one: Reading, two: Reading)
    requires one.Got? ==> two.Got? && one.sid != two.sid
    ensures var second := if two.Got? then [Source(two.sid, two.title, two.photos)] else [];
            Scraped([one, two]) == (if one.Got? then [Source(one.sid, one.title, one.photos)] else []) + second
  {
    ScrapedNone();
    ScrapedStep([], one);
    ScrapedStep([one], two);
    assert [] + [one] == [one] && [one] + [two] == [one, two];
  }

  // Photo k, listed for "B" alone, is in "A" as well: in the trash, or put there
  // by someone else.
  lemma NotMirroredInput(google: map<string, Content>, x: Asset, assets: Assets, albums: Albums, readings: seq<Reading>)
    requires x == Asset([0], Some({"k"}), true) || x == Asset([0], None, false)
    requires google == map["k" := [0], "j" := [1]] && assets == map[0 := x, 1 := Asset([1], Some({"j"}), false)]
    requires albums == map[1 := Album("A", Some("aa"), {0, 1}), 2 := Album("B", Some("bb"), {}),
                           3 := Album("Google Photos", Some(COMBINED), {1})]
    requires readings == [Got("aa", "A", ["j"]), Got("bb", "B", ["k"])]
    ensures Sound(google, assets) && UniqueMarkers(albums) && MembersStored(assets, albums) && Complete(readings)
    ensures AllPhotos(Scraped(readings)) <= google.Keys && (forall r :: r in readings && r.Got? ==> r.sid != COMBINED)
    ensures EveryStrangerListed(google, assets, albums, Scraped(readings))
    ensures if x.trashed then !NoRevival(google, assets, albums, Scraped(readings))
            else !StrangersListed(google, assets, albums, Scraped(readings))
  {
    hide *;
    InputAccount(google, x, assets, albums);
    var a, b := Source("aa", "A", ["j"]), Source("bb", "B", ["k"]);
    InputList(readings, a, b);
    ListedPhotos(a, b);
    InputStrangers(google, x, assets, albums, a, b);
    if x.trashed {
      RevivedOnce(google, assets, albums, a, b);
    } else {
      ListedLate(google, assets, albums, a, b);
    }
  }

  lemma InputAccount(google: map<string, Content>, x: Asset, assets: Assets, albums: Albums)
    requires x == Asset([0], Some({"k"}), true) || x == Asset([0], None, false)
    requires google == map["k" := [0], "j" := [1]] && assets == map[0 := x, 1 := Asset([1], Some({"j"}), false)]
    requires albums == map[1 := Album("A", Some("aa"), {0, 1}), 2 := Album("B", Some("bb"), {}),
                           3 := Album("Google Photos", Some(COMBINED), {1})]
    ensures Sound(google, assets) && UniqueMarkers(albums) && MembersStored(assets, albums)
    ensures forall i, a :: Stranger(assets, albums, i, a) ==> a == 0
  {
    assert "aa" != COMBINED && "bb" != COMBINED && "aa" != "bb";
    assert forall i :: i in albums ==> i == 1 || i == 2 || i == 3;
    assert assets[0].content[0] != assets[1].content[0];
  }

  lemma InputList(readings: seq<Reading>, a: Source, b: Source)
    requires readings == [Got("aa", "A", ["j"]), Got("bb", "B", ["k"])]
    requires a == Source("aa", "A", ["j"]) && b == Source("bb", "B", ["k"])
    ensures Scraped(readings) == [a, b] && Complete(readings) && forall r :: r in readings && r.Got? ==> r.sid != COMBINED
  {
    assert "aa" != COMBINED && "bb" != COMBINED && "aa" != "bb";
    TwoReadings(readings[0], readings[1]);
    assert readings == [readings[0], readings[1]];
    hide Scraped;
  }

  lemma ListedPhotos(a: Source, b: Source)
    requires a == Source("aa", "A", ["j"]) && b == Source("bb", "B", ["k"])
    ensures AllPhotos([a, b]) == {"j", "k"} && PhotosFor([a, b], Some("aa")) == {"j"} && {"aa", "bb"} <= Sids([a, b])
    ensures AllPhotos([a, b][..1]) == {"j"} && [a, b][0].sid == "aa"
  {
    var scraped := [a, b];
    assert scraped[..1] == [a];
    assert a in scraped && b in scraped && "j" in a.photos && "k" in b.photos && a in scraped[..1];
    assert "aa" != COMBINED && "aa" != "bb";
  }

  lemma InputStrangers(google: map<string, Content>, x: Asset, assets: Assets, albums: Albums, a: Source, b: Source)
    requires "k" in google && google["k"] == [0] && 0 in assets && assets[0] == x && x.content == [0]
    requires AllPhotos([a, b]) == {"j", "k"} && forall i, y :: Stranger(assets, albums, i, y) ==> y == 0
    ensures EveryStrangerListed(google, assets, albums, [a, b])
  {
    hide AllPhotos, Stranger;
    assert Pictured(google, [0], AllPhotos([a, b])) by {
      assert "k" in AllPhotos([a, b]);
    }
  }

  lemma RevivedOnce(google: map<string, Content>, assets: Assets, albums: Albums, a: Source, b: Source)
    requires google == map["k" := [0], "j" := [1]] && 0 in assets && assets[0] == Asset([0], Some({"k"}), true)
    requires 1 in albums && albums[1] == Album("A", Some("aa"), {0, 1})
    requires AllPhotos([a, b]) == {"j", "k"} && PhotosFor([a, b], Some("aa")) == {"j"} && "aa" in Sids([a, b])
    ensures !NoRevival(google, assets, albums, [a, b])
  {
    hide AllPhotos, PhotosFor, Sids;
    assert Pictured(google, [0], AllPhotos([a, b])) by {
      assert "k" in AllPhotos([a, b]) && google["k"] == [0];
    }
    assert Revives(google, assets, albums, [a, b], 1, 0);
  }

  lemma ListedLate(google: map<string, Content>, assets: Assets, albums: Albums, a: Source, b: Source)
    requires google == map["k" := [0], "j" := [1]] && 0 in assets && assets[0] == Asset([0], None, false)
    requires 1 in albums && albums[1] == Album("A", Some("aa"), {0, 1})
    requires AllPhotos([a, b][..1]) == {"j"} && [a, b][0].sid == "aa"
    ensures !StrangersListed(google, assets, albums, [a, b])
  {
    hide AllPhotos;
    assert Stranger(assets, albums, 1, 0);
    assert [a, b][..0 + 1] == [a, b][..1];
    assert !Pictured(google, [0], AllPhotos([a, b][..0 + 1]));
  }
}
