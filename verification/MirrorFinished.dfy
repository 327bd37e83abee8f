// What a run that went through did to the account, whatever photos it missed.

module MirrorFinished {
  import opened MirrorConvergence
  import opened MirrorRuns
  import opened MirrorSafety
  import opened MirrorSteps
  import opened MirrorStore
  import opened Options

  // The album holds every asset that our albums showed before and that stands for
  // one of the photos.
  ghost predicate Serves(s: State, t: State, i: nat, photos: set<string>) {
    i in t.albums && forall k, a :: k in photos && ShownBefore(s, a, k) ==> a in t.albums[i].members
  }

  ghost predicate ShownBefore(s: State, a: nat, k: string) {
    Managed(s.assets, s.albums, a) && a in s.assets && HasKey(s.assets[a], k)
  }

  ghost predicate AlbumServed(s: State, t: State, d: Source) {
    exists i :: i in t.albums && t.albums[i].marker == Some(d.sid) && t.albums[i].name == d.title && Serves(s, t, i, PhotoSet(d.photos))
  }

  ghost predicate CombinedServed(s: State, t: State, scraped: seq<Source>) {
    exists i :: i in t.albums && t.albums[i].marker == Some(COMBINED) && Serves(s, t, i, AllPhotos(scraped))
  }

  // Of our assets the album with this marker showed before, it kept none whose bytes
  // are in none of the photos.
  ghost predicate UnlistedGone(google: map<string, Content>, s: State, t: State, sid: string, photos: set<string>) {
    forall i: nat, a: nat :: OwnMember(s, sid, i, a) && i in t.albums && a in t.albums[i].members ==>
      Pictured(google, s.assets[a].content, photos)
  }

  ghost predicate OnlyListed(t: State, sids: set<string>) {
    forall i :: i in t.albums && t.albums[i].marker.Some? ==> t.albums[i].marker.value in sids + {COMBINED}
  }

  // Nothing of ours is left visible outside all albums, but for someone else's photo
  // in an album of ours that only became ours during a run that missed some.
  ghost predicate NoStrays(s: State, t: State) {
    forall a :: Unalbumed(t.assets, t.albums, a) && t.assets[a].keys.Some? ==> t.missed > 0 && exists i :: Stranger(s.assets, s.albums, i, a)
  }

  // Every readable album has its title and its known photos and lost what is not
  // listed for it; the combined album has all of them. After a complete read it too
  // lost what is not listed, and dropped albums and what belongs nowhere are gone.
  ghost predicate Finished(google: map<string, Content>, s: State, t: State, scraped: seq<Source>, complete: bool) {
    && (forall d :: d in scraped ==> AlbumServed(s, t, d) && UnlistedGone(google, s, t, d.sid, PhotoSet(d.photos)))
    && CombinedServed(s, t, scraped)
    && (complete ==>
          UnlistedGone(google, s, t, COMBINED, AllPhotos(scraped)) && OnlyListed(t, Sids(scraped)) && NoStrays(s, t))
  }

  // ---- known photos are served

  lemma ManagedIsKnown(s: State, r: State, a: nat)
    requires UniqueMarkers(s.albums) && OnlyCombinedNew(s, r) && ReadOf(s, r) && r.assets == s.assets
    requires Managed(s.assets, s.albums, a)
    ensures a in r.known
  {
    var i :| i in s.albums && s.albums[i].marker.Some? && a in Visible(s.assets, s.albums[i].members);
    hide KeysRead, Syncing;
    assert r.albums[i] == s.albums[i];
    assert i in r.members;
  }

  lemma KnownByKey(google: map<string, Content>, s: State, r: State, a: nat, k: string)
    requires Sound(google, s.assets) && UniqueMarkers(s.albums) && OnlyCombinedNew(s, r) && ReadOf(s, r) && r.assets == s.assets
    requires ShownBefore(s, a, k)
    ensures k in r.byKey && r.byKey[k] == a
  {
    ManagedIsKnown(s, r, a);
    hide Sound, UniqueMarkers, OnlyCombinedNew, Linked, Managed;
    assert a in r.mine && k in r.byKey;
    SoundKeysUnique(google, r.assets, a, r.byKey[k], k);
  }

  lemma KnownIsWanted(google: map<string, Content>, s: State, r: State, l: State, scraped: seq<Source>, d: Source, a: nat, k: string)
    requires Sound(google, s.assets) && UniqueMarkers(s.albums) && OnlyCombinedNew(s, r) && ReadOf(s, r) && r.assets == s.assets
    requires Progress(r, l, scraped) && d in scraped && k in d.photos && ShownBefore(s, a, k)
    ensures d.sid in l.wants && a in l.wants[d.sid] && a in l.desired
  {
    KnownByKey(google, s, r, a, k);
    FulfilledOf(r, l, scraped, d);
    ProgressFrame(r, l, scraped);
    hide Sound, UniqueMarkers, OnlyCombinedNew, ReadOf, Progress, ShownBefore, Linked, Owned;
    assert Wanted(r, l, d, l.wants[d.sid]);
  }

  // A listed album, and the combined one, end as their turns left them.
  lemma AlbumsStay(r: State, l: State, c: State, d: State, scraped: seq<Source>)
    requires Progress(r, l, scraped) && OnlyCombinedTouched(l, c) && COMBINED !in Sids(scraped)
    requires d == c || Dropped(c, d, Sids(scraped))
    ensures forall m :: m in Sids(scraped) ==>
              && m in l.ours && l.ours[m] in l.albums && l.ours[m] in d.albums && d.albums[l.ours[m]] == l.albums[l.ours[m]]
              && d.albums[l.ours[m]].marker == Some(m)
    ensures l.combined in c.albums && l.combined in d.albums && d.albums[l.combined] == c.albums[l.combined]
    ensures d.albums[l.combined].marker == Some(COMBINED) && l.combined == r.combined && c.combined == l.combined
  {
    hide Owned, Fulfilled, ExactAt, UnionOfWants, Untouched, Counted, Sids;
    assert Linked(l);
  }

  lemma ListedServed(google: map<string, Content>, s: State, r: State, l: State, t: State, scraped: seq<Source>, d: Source)
    requires Sound(google, s.assets) && UniqueMarkers(s.albums) && OnlyCombinedNew(s, r) && ReadOf(s, r) && r.assets == s.assets
    requires Progress(r, l, scraped) && d in scraped && d.sid in l.ours
    requires l.ours[d.sid] in l.albums && l.ours[d.sid] in t.albums && t.albums[l.ours[d.sid]] == l.albums[l.ours[d.sid]]
    requires t.albums[l.ours[d.sid]].marker == Some(d.sid)
    ensures AlbumServed(s, t, d)
  {
    var i := l.ours[d.sid];
    FulfilledOf(r, l, scraped, d);
    hide Sound, UniqueMarkers, OnlyCombinedNew, ReadOf, Progress, ShownBefore, Linked, PhotoSet, Wanted, Hidden, Leftover;
    PhotosWithin([d], d);
    forall k, a | k in PhotoSet(d.photos) && ShownBefore(s, a, k) ensures a in t.albums[i].members {
      KnownIsWanted(google, s, r, l, scraped, d, a, k);
    }
    assert Serves(s, t, i, PhotoSet(d.photos));
  }

  lemma UnionServed(google: map<string, Content>, s: State, r: State, l: State, c: State, t: State, scraped: seq<Source>)
    requires Sound(google, s.assets) && UniqueMarkers(s.albums) && OnlyCombinedNew(s, r) && ReadOf(s, r) && r.assets == s.assets
    requires Progress(r, l, scraped) && l.combined in c.albums && l.desired <= c.albums[l.combined].members
    requires l.combined in t.albums && t.albums[l.combined] == c.albums[l.combined] && t.albums[l.combined].marker == Some(COMBINED)
    ensures CombinedServed(s, t, scraped)
  {
    hide Sound, UniqueMarkers, OnlyCombinedNew, ReadOf, Progress, ShownBefore, AllPhotos;
    forall k, a | k in AllPhotos(scraped) && ShownBefore(s, a, k) ensures a in t.albums[l.combined].members {
      var d := PhotoSource(scraped, k);
      PhotosWithin(scraped, d);
      KnownIsWanted(google, s, r, l, scraped, d, a, k);
    }
    assert Serves(s, t, l.combined, AllPhotos(scraped));
  }

  // ---- what is not listed goes

  lemma WantedIsListed(google: map<string, Content>, r: State, l: State, scraped: seq<Source>, d: Source, a: nat)
    requires Sound(google, l.assets) && Progress(r, l, scraped) && d in scraped && d.sid in l.wants && a in l.wants[d.sid]
    ensures a in l.assets && Pictured(google, l.assets[a].content, PhotoSet(d.photos))
  {
    FulfilledOf(r, l, scraped, d);
    hide Progress, Sound, Linked, StandsFor, Hidden, Leftover, Pictured;
    assert Wanted(r, l, d, l.wants[d.sid]);
    StandsPictured(google, l.assets, a, PhotoSet(d.photos));
  }

  lemma ListedLoses(google: map<string, Content>, s: State, r: State, l: State, t: State, scraped: seq<Source>, d: Source)
    requires Sound(google, l.assets) && UniqueMarkers(s.albums) && OnlyCombinedNew(s, r) && ReadOf(s, r) && Grown(r.assets, l.assets)
    requires Progress(r, l, scraped) && d in scraped && d.sid in l.ours && d.sid != COMBINED
    requires l.ours[d.sid] in l.albums && l.ours[d.sid] in t.albums && t.albums[l.ours[d.sid]] == l.albums[l.ours[d.sid]]
    ensures UnlistedGone(google, s, t, d.sid, PhotoSet(d.photos))
  {
    hide Sound, UniqueMarkers, OnlyCombinedNew, ReadOf, Grown, Progress, OwnMember, Pictured, PhotoSet;
    forall i: nat, a: nat | OwnMember(s, d.sid, i, a) && i in t.albums && a in t.albums[i].members
      ensures a in s.assets && Pictured(google, s.assets[a].content, PhotoSet(d.photos))
    {
      OwnMemberRead(s, r, d, i, a);
      FulfilledOf(r, l, scraped, d);
      GrownContent(r.assets, l.assets, a);
      MemberIffWanted(r, l, d, i, a);
      WantedIsListed(google, r, l, scraped, d, a);
    }
  }

  lemma CombinedMemberRead(s: State, r: State, i: nat, a: nat)
    requires UniqueMarkers(s.albums) && OnlyCombinedNew(s, r) && ReadOf(s, r) && OwnMember(s, COMBINED, i, a)
    ensures i == r.combined && r.assets == s.assets && a in r.assets
    ensures a !in Hidden(r, i) && a !in Strangers(r, i)
  {
    hide Syncing;
    assert r.albums[i] == s.albums[i] && i in r.members;
    assert a in r.members[i] && a in r.known;
  }

  lemma CombinedLoses(google: map<string, Content>, s: State, r: State, l: State, c: State, t: State, scraped: seq<Source>)
    requires Sound(google, l.assets) && UniqueMarkers(s.albums) && OnlyCombinedNew(s, r) && ReadOf(s, r) && Grown(r.assets, l.assets)
    requires Progress(r, l, scraped) && r.combined in c.albums && r.combined in t.albums && t.albums[r.combined] == c.albums[r.combined]
    requires c.albums[r.combined].members == Hidden(r, r.combined) + Strangers(r, r.combined) + l.desired
    ensures UnlistedGone(google, s, t, COMBINED, AllPhotos(scraped))
  {
    ProgressFrame(r, l, scraped);
    hide Sound, UniqueMarkers, OnlyCombinedNew, ReadOf, Grown, Progress, OwnMember, Pictured, AllPhotos, Hidden, Strangers, Linked, Owned;
    forall i: nat, a: nat | OwnMember(s, COMBINED, i, a) && i in t.albums && a in t.albums[i].members
      ensures a in s.assets && Pictured(google, s.assets[a].content, AllPhotos(scraped))
    {
      CombinedMemberRead(s, r, i, a);
      GrownContent(r.assets, l.assets, a);
      var m :| m in l.wants && a in l.wants[m];
      var d :| d in scraped && d.sid == m;
      WantedIsListed(google, r, l, scraped, d, a);
      PhotosWithin(scraped, d);
      PicturedMore(google, l.assets[a].content, PhotoSet(d.photos), AllPhotos(scraped));
    }
  }

  lemma PicturedMore(google: map<string, Content>, content: Content, photos: set<string>, more: set<string>)
    requires Pictured(google, content, photos) && photos <= more
    ensures Pictured(google, content, more)
  {}

  // ---- the clean-up, whatever was missed

  lemma DroppedAll(s: State, r: State, l: State, c: State, d: State, scraped: seq<Source>)
    requires UniqueMarkers(s.albums) && OnlyCombinedNew(s, r) && ReadOf(s, r) && Progress(r, l, scraped)
    requires Stepped(r, l, Sids(scraped)) && OnlyCombinedTouched(l, c) && Dropped(c, d, Sids(scraped))
    requires forall m :: m in d.ours && m !in Sids(scraped) ==> d.ours[m] !in d.albums
    ensures OnlyListed(d, Sids(scraped))
  {
    hide UniqueMarkers, OnlyCombinedNew, ReadOf, Progress, Stepped, OnlyCombinedTouched, Dropped, Sids;
    forall i | i in d.albums && d.albums[i].marker.Some? ensures d.albums[i].marker.value in Sids(scraped) + {COMBINED} {
      if d.albums[i].marker.value != COMBINED && d.albums[i].marker.value !in Sids(scraped) {
        UnlistedRead(s, r, l, c, d, scraped, i);
        assert false;
      }
    }
  }

  lemma StraysGone(s: State, r: State, l: State, c: State, d: State, e: State, part: set<nat>, scraped: seq<Source>)
    requires OnlyCombinedNew(s, r) && ReadOf(s, r) && r.assets == s.assets && Progress(r, l, scraped) && r.missed == 0
    requires Stepped(r, l, Sids(scraped)) && OnlyCombinedTouched(l, c) && Dropped(c, d, Sids(scraped))
    requires l.combined in d.albums && l.desired <= d.albums[l.combined].members
    requires (forall a :: a in part <==> Orphan(d, a)) && ((e == d && part == {}) || TrashedPart(d, e, part))
    ensures NoStrays(s, e)
  {
    ProgressFrame(r, l, scraped);
    TouchedFrame(l, c);
    DroppedFrame(c, d, Sids(scraped));
    TrashIsMap(d, e, part);
    SteppedCounts(r, l, Sids(scraped));
    MissedNone(r, l);
    hide OnlyCombinedNew, ReadOf, Progress, Stepped, OnlyCombinedTouched, Dropped, TrashedPart, Linked, Owned, UnionOfWants, Counted;
    forall a | Unalbumed(e.assets, e.albums, a) && e.assets[a].keys.Some?
      ensures e.missed > 0 && exists i :: Stranger(s.assets, s.albums, i, a)
    {
      assert a in d.assets && !d.assets[a].trashed && a !in part && d.assets[a].keys.Some?;
      assert a !in l.desired;
      StrayIsKnown(d, a);
      var i := KnownStranger(s, r, a);
    }
  }

  // What is ours, in no album and no orphan was known as someone else's.
  lemma StrayIsKnown(d: State, a: nat)
    requires Unalbumed(d.assets, d.albums, a) && d.assets[a].keys.Some? && a !in d.desired && !Orphan(d, a)
    ensures a in d.known && a !in d.mine
  {}

  lemma KnownStranger(s: State, r: State, a: nat) returns (i: nat)
    requires OnlyCombinedNew(s, r) && ReadOf(s, r) && r.assets == s.assets && a in r.known && a !in r.mine
    ensures a in r.assets && r.assets[a].keys == None && Stranger(s.assets, s.albums, i, a)
  {
    i :| i in r.members && a in r.members[i];
    assert a in Strangers(r, i);
    StrangerRead(s, r, i, a);
  }

  // ---- together

  lemma FinishedBy(google: map<string, Content>, first: State, s: State, r: State, l: State, c: State, d: State, e: State,
                   scraped: seq<Source>, complete: bool)
    requires Sound(google, s.assets) && Sound(google, c.assets) && UniqueMarkers(s.albums) && OnlyCombinedNew(s, r) && ReadOf(s, r)
    requires Gathered(r, l, c, scraped, complete) && COMBINED !in Sids(scraped)
    requires (d == c || Dropped(c, d, Sids(scraped))) && e.albums == d.albums
    requires first.assets == s.assets && first.albums == s.albums
    requires complete ==> OnlyListed(d, Sids(scraped)) && NoStrays(s, e)
    ensures Finished(google, first, e, scraped, complete)
  {
    hide *;
    GatheredSteps(r, l, c, scraped, complete);
    GatheredAll(r, l, c, scraped, complete);
    ReadFacts(s, r);
    TouchedFrame(l, c);
    SteppedGrows(r, l, Sids(scraped));
    AlbumsStay(r, l, c, d, scraped);
    forall p | p in scraped ensures AlbumServed(s, e, p) && UnlistedGone(google, s, e, p.sid, PhotoSet(p.photos)) {
      SidsHas(scraped, p);
      ListedServed(google, s, r, l, e, scraped, p);
      ListedLoses(google, s, r, l, e, scraped, p);
    }
    UnionServed(google, s, r, l, c, e, scraped);
    if complete {
      GatheredExactly(s, r, l, c, scraped);
      CombinedLoses(google, s, r, l, c, e, scraped);
    }
    FinishedIs(google, first, s, d, e, scraped, complete);
  }

  lemma GatheredAll(r: State, l: State, c: State, scraped: seq<Source>, complete: bool)
    requires Gathered(r, l, c, scraped, complete)
    ensures l.combined in c.albums && l.desired <= c.albums[l.combined].members
  {
    hide Progress, Stepped;
  }

  lemma FinishedIs(google: map<string, Content>, first: State, s: State, d: State, e: State, scraped: seq<Source>, complete: bool)
    requires first.assets == s.assets && first.albums == s.albums && e.albums == d.albums
    requires forall p :: p in scraped ==> AlbumServed(s, e, p) && UnlistedGone(google, s, e, p.sid, PhotoSet(p.photos))
    requires CombinedServed(s, e, scraped)
    requires complete ==> UnlistedGone(google, s, e, COMBINED, AllPhotos(scraped)) && OnlyListed(d, Sids(scraped)) && NoStrays(s, e)
    ensures Finished(google, first, e, scraped, complete)
  {
    forall p | p in scraped ensures AlbumServed(first, e, p) && UnlistedGone(google, first, e, p.sid, PhotoSet(p.photos)) {
      ServedFrame(first, s, e, p);
      GoneFrame(google, first, s, e, p.sid, PhotoSet(p.photos));
    }
    CombinedFrame(first, s, e, scraped);
    if complete {
      GoneFrame(google, first, s, e, COMBINED, AllPhotos(scraped));
      StraysFrame(first, s, e);
    }
    hide AlbumServed, UnlistedGone, CombinedServed, NoStrays;
  }

  lemma ServesFrame(first: State, s: State, e: State, i: nat, photos: set<string>)
    requires first.assets == s.assets && first.albums == s.albums && Serves(s, e, i, photos)
    ensures Serves(first, e, i, photos)
  {
    hide Managed;
    forall k, a | k in photos && ShownBefore(first, a, k) ensures a in e.albums[i].members {
      assert ShownBefore(s, a, k);
    }
  }

  lemma ServedFrame(first: State, s: State, e: State, d: Source)
    requires first.assets == s.assets && first.albums == s.albums && AlbumServed(s, e, d)
    ensures AlbumServed(first, e, d)
  {
    hide Serves;
    var i :| i in e.albums && e.albums[i].marker == Some(d.sid) && e.albums[i].name == d.title && Serves(s, e, i, PhotoSet(d.photos));
    ServesFrame(first, s, e, i, PhotoSet(d.photos));
  }

  lemma CombinedFrame(first: State, s: State, e: State, scraped: seq<Source>)
    requires first.assets == s.assets && first.albums == s.albums && CombinedServed(s, e, scraped)
    ensures CombinedServed(first, e, scraped)
  {
    hide Serves;
    var i :| i in e.albums && e.albums[i].marker == Some(COMBINED) && Serves(s, e, i, AllPhotos(scraped));
    ServesFrame(first, s, e, i, AllPhotos(scraped));
  }

  lemma GoneFrame(google: map<string, Content>, first: State, s: State, e: State, sid: string, photos: set<string>)
    requires first.assets == s.assets && first.albums == s.albums && UnlistedGone(google, s, e, sid, photos)
    ensures UnlistedGone(google, first, e, sid, photos)
  {
    hide Pictured;
    forall i: nat, a: nat | OwnMember(first, sid, i, a) && i in e.albums && a in e.albums[i].members
      ensures Pictured(google, first.assets[a].content, photos)
    {
      assert OwnMember(s, sid, i, a);
    }
  }

  lemma StraysFrame(first: State, s: State, e: State)
    requires first.assets == s.assets && first.albums == s.albums && NoStrays(s, e)
    ensures NoStrays(first, e)
  {
    hide Stranger, Unalbumed;
  }

  // The end of a run whose phases all went through, without a clean-up and with one.
  lemma FinishedIncomplete(google: map<string, Content>, first: State, s: State, r: State, l: State, c: State, e: State,
                           readings: seq<Reading>)
    requires ReadyToDelete(google, s, r, l, c, readings) && !Complete(readings) && e == c.(errors := e.errors)
    requires first.assets == s.assets && first.albums == s.albums && UniqueMarkers(first.albums)
    ensures Finished(google, first, e, Scraped(readings), false)
  {
    hide Starting, Sound, OnlyCombinedNew, ReadOf, Calm, Distinct, Sids, Scraped, Complete, Gathered, UniqueMarkers, Finished, OnlyListed,
      NoStrays;
    FinishedBy(google, first, s, r, l, c, c, e, Scraped(readings), false);
  }

  lemma FinishedClean(google: map<string, Content>, first: State, s: State, r: State, l: State, c: State, d: State, e: State,
                      part: set<nat>, readings: seq<Reading>)
    requires ReadyToDelete(google, s, r, l, c, readings) && Complete(readings)
    requires first.assets == s.assets && first.albums == s.albums && UniqueMarkers(first.albums)
    requires Dropped(c, d, Sids(Scraped(readings))) && ((e == d && part == {}) || TrashedPart(d, e, part))
    requires forall a :: a in part <==> Orphan(d, a)
    requires forall m :: m in d.ours && m !in Sids(Scraped(readings)) ==> d.ours[m] !in d.albums
    ensures Finished(google, first, e, Scraped(readings), true)
  {
    var scraped := Scraped(readings);
    assert s.missed == 0 && COMBINED !in Sids(scraped);
    hide Starting, Sound, OnlyCombinedNew, ReadOf, Calm, Distinct, Sids, Scraped, Complete, Gathered, UniqueMarkers, Finished, OnlyListed,
      NoStrays, Dropped, TrashedPart, Orphan;
    GatheredSteps(r, l, c, scraped, true);
    GatheredAll(r, l, c, scraped, true);
    ReadFacts(s, r);
    AlbumsStay(r, l, c, d, scraped);
    DroppedAll(s, r, l, c, d, scraped);
    StraysGone(s, r, l, c, d, e, part, scraped);
    TrashIsMap(d, e, part);
    FinishedBy(google, first, s, r, l, c, d, e, scraped, true);
  }
}
