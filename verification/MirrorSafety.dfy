// What a run of the mirror may lose: it deletes and trashes only what no listed
// album holds, and no album loses a photo that is still listed for it.

module MirrorSafety {
  import opened MirrorSteps
  import opened MirrorStore
  import opened Options

  // ---- safety

  // The asset was in one of our albums and a readable listed album has its photo.
  ghost predicate StillListed(s: State, scraped: seq<Source>, a: nat) {
    Managed(s.assets, s.albums, a) && StandsFor(s.assets, a, AllPhotos(scraped))
  }

  ghost predicate TrashedRightly(s: State, t: State, scraped: seq<Source>, a: nat) {
    a in t.assets && t.assets[a].keys.Some? && !Foreign(t.albums, a) && !StillListed(s, scraped, a)
  }

  // One entry of the log of a run from `s` to `t`.
  ghost predicate WriteAllowed(s: State, t: State, readings: seq<Reading>, n: nat)
    requires n < |t.log|
  {
    match t.log[n]
    case Trash(ids) =>
      Complete(readings) && n == |t.log| - 1 && forall a :: a in ids ==> TrashedRightly(s, t, Scraped(readings), a)
    case DeleteAlbum(_, marker) =>
      Complete(readings) && marker.Some? && marker.value != COMBINED && marker.value !in Sids(Scraped(readings))
    case _ => true
  }

  // An asset is only newly in the trash because this run put it there.
  ghost predicate AssetsKept(s: State, t: State) {
    forall x :: x in s.assets ==>
      && x in t.assets && t.assets[x].content == s.assets[x].content
      && (s.assets[x].keys.Some? ==> t.assets[x].keys.Some? && s.assets[x].keys.value <= t.assets[x].keys.value)
      && (t.assets[x].trashed && !s.assets[x].trashed ==>
            t.log != [] && t.log[|t.log| - 1].Trash? && x in t.log[|t.log| - 1].ids)
  }

  ghost predicate AlbumsKept(s: State, t: State, complete: bool) {
    && (forall i :: i in s.albums && i !in t.albums ==> DeleteAlbum(i, s.albums[i].marker) in t.log)
    && (forall i :: i in s.albums && i in t.albums ==> t.albums[i].marker == s.albums[i].marker)
    && (forall i :: i in s.albums && s.albums[i].marker == None ==> i in t.albums && t.albums[i] == s.albums[i])
    && (!complete ==> CombinedKept(s, t))
    && LosesOnlyOwn(s.albums, t.albums, t.assets)
  }

  // A new album is a listed or the combined one, and its marker is new.
  ghost predicate NewNeeded(before: Albums, after: Albums, sids: set<string>) {
    forall i :: i in after && i !in before ==>
      && MarkedBy(after[i], sids + {COMBINED})
      && forall j :: j in before ==> before[j].marker != after[i].marker
  }

  // No listed album, nor the combined one, loses a photo that is still listed for it.
  ghost predicate ListedKept(s: State, t: State, scraped: seq<Source>) {
    forall i, a :: Lost(s.albums, t.albums, i, a) ==>
      !StandsFor(s.assets, a, PhotosFor(scraped, s.albums[i].marker))
  }

  ghost predicate CombinedKept(s: State, t: State) {
    forall i :: i in s.albums && s.albums[i].marker == Some(COMBINED) ==>
      i in t.albums && s.albums[i].members <= t.albums[i].members
  }

  // Deletion safety of a run from `s` to `t`, however it ended.
  ghost predicate Safe(s: State, t: State, readings: seq<Reading>) {
    && AssetsKept(s, t) && AlbumsKept(s, t, Complete(readings)) && ListedKept(s, t, Scraped(readings))
    && NewNeeded(s.albums, t.albums, Sids(Scraped(readings)))
    && forall n :: 0 <= n < |t.log| ==> WriteAllowed(s, t, readings, n)
  }

  // Up to the point where a run starts to delete.
  ghost predicate Calm(s: State, t: State, scraped: seq<Source>, complete: bool) {
    && Grown(s.assets, t.assets) && Syncing(s.log, t.log) && LosesOnlyOwn(s.albums, t.albums, t.assets)
    && (forall i :: i in s.albums ==> i in t.albums && t.albums[i].marker == s.albums[i].marker)
    && (forall i :: i in s.albums && s.albums[i].marker == None ==> t.albums[i] == s.albums[i])
    && NewNeeded(s.albums, t.albums, Sids(scraped)) && ListedKept(s, t, scraped)
    && (!complete ==> CombinedKept(s, t))
  }

  lemma CalmIsSafe(s: State, t: State, readings: seq<Reading>)
    requires Starting(s) && Calm(s, t, Scraped(readings), Complete(readings))
    ensures Safe(s, t, readings)
  {
    hide LosesOnlyOwn, CombinedKept, ListedKept, NewNeeded, Scraped;
    assert forall n :: 0 <= n < |t.log| ==> !t.log[n].Trash? && !t.log[n].DeleteAlbum?;
  }

  lemma CalmRead(s: State, t: State, scraped: seq<Source>, complete: bool)
    requires OnlyCombinedNew(s, t) && t.assets == s.assets
    ensures Calm(s, t, scraped, complete)
  {
    hide Grown, Syncing, StandsFor, PhotosFor;
    GrownSelf(s.assets);
  }

  // What was in an album of ours as the run read it, and what it stands for, is known.
  lemma SeenIsKnown(google: map<string, Content>, r: State, i: nat, a: nat, photos: set<string>)
    requires Sound(google, r.assets) && KeysRead(r) && (forall j :: j in r.members ==> r.members[j] <= r.known)
    requires a in SeenMembers(r, i) && StandsFor(r.assets, a, photos)
    ensures !NotKnown(r, photos, a)
  {
    hide Sound;
    var k :| k in photos && HasKey(r.assets[a], k);
    assert a in r.mine && k in r.byKey;
    SoundKeysUnique(google, r.assets, a, r.byKey[k], k);
  }

  // From the albums as read to the albums as they were.
  lemma KeptFromRead(google: map<string, Content>, s: State, r: State, t: State, scraped: seq<Source>)
    requires Sound(google, s.assets) && OnlyCombinedNew(s, r) && ReadOf(s, r) && KeepsListed(r, t, scraped)
    ensures ListedKept(s, t, scraped)
  {
    hide Sound, Linked, KeysRead, StandsFor, NotKnown, PhotosFor, SeenMembers, Syncing;
    forall i, a | Lost(s.albums, t.albums, i, a)
      ensures !StandsFor(s.assets, a, PhotosFor(scraped, s.albums[i].marker))
    {
      assert Lost(r.albums, t.albums, i, a);
      if StandsFor(s.assets, a, PhotosFor(scraped, s.albums[i].marker)) {
        SeenIsKnown(google, r, i, a, PhotosFor(scraped, r.albums[i].marker));
      }
    }
  }

  // After the listed albums, and perhaps the combined one.
  lemma CalmSynced(google: map<string, Content>, s: State, r: State, c: State, scraped: seq<Source>, complete: bool)
    requires Sound(google, s.assets) && OnlyCombinedNew(s, r) && ReadOf(s, r)
    requires Stepped(r, c, Sids(scraped) + {COMBINED}) && KeepsListed(r, c, scraped)
    requires forall i :: i in c.albums && i !in r.albums ==> c.albums[i].marker != Some(COMBINED)
    requires !complete ==> CombinedKept(r, c)
    ensures Calm(s, c, scraped, complete)
  {
    hide *;
    KeptFromRead(google, s, r, c, scraped);
    ReadLoses(s, r, c, Sids(scraped) + {COMBINED});
    NewNeededAfter(s, r, c, Sids(scraped));
    ReadLogs(s, r, c, Sids(scraped) + {COMBINED});
    ReadMarkers(s, r, c, Sids(scraped) + {COMBINED});
    if !complete {
      CombinedSinceRead(s, r, c);
    }
    CalmBy(s, c, scraped, complete);
  }

  lemma CalmBy(s: State, t: State, scraped: seq<Source>, complete: bool)
    requires Grown(s.assets, t.assets) && Syncing(s.log, t.log) && LosesOnlyOwn(s.albums, t.albums, t.assets)
    requires forall i :: i in s.albums ==> i in t.albums && t.albums[i].marker == s.albums[i].marker
    requires forall i :: i in s.albums && s.albums[i].marker == None ==> t.albums[i] == s.albums[i]
    requires NewNeeded(s.albums, t.albums, Sids(scraped)) && ListedKept(s, t, scraped) && (!complete ==> CombinedKept(s, t))
    ensures Calm(s, t, scraped, complete)
  {
    hide Grown, Syncing, LosesOnlyOwn, NewNeeded, ListedKept, CombinedKept;
  }

  lemma ReadMarkers(s: State, r: State, c: State, sids: set<string>)
    requires OnlyCombinedNew(s, r) && ReadOf(s, r) && Stepped(r, c, sids)
    ensures Grown(s.assets, c.assets)
    ensures forall i :: i in s.albums ==> i in c.albums && c.albums[i].marker == s.albums[i].marker
    ensures forall i :: i in s.albums && s.albums[i].marker == None ==> c.albums[i] == s.albums[i]
  {
    hide Grown, Syncing, LosesOnlyOwn, Unread, Counted, Linked, KeysRead;
  }

  lemma CombinedSinceRead(s: State, r: State, c: State)
    requires OnlyCombinedNew(s, r) && CombinedKept(r, c)
    ensures CombinedKept(s, c)
  {
    hide Syncing;
  }

  lemma ReadLoses(s: State, r: State, c: State, sids: set<string>)
    requires OnlyCombinedNew(s, r) && Stepped(r, c, sids)
    ensures LosesOnlyOwn(s.albums, c.albums, c.assets)
  {
    hide Grown, Syncing, Unread, Counted;
    forall i, a | Lost(s.albums, c.albums, i, a)
      ensures s.albums[i].marker.Some? && a in c.assets && c.assets[a].keys.Some?
    {
      assert Lost(r.albums, c.albums, i, a);
    }
  }

  lemma ReadLogs(s: State, r: State, c: State, sids: set<string>)
    requires OnlyCombinedNew(s, r) && Stepped(r, c, sids)
    ensures Syncing(s.log, c.log)
  {
    hide Grown, LosesOnlyOwn, Unread, Counted, Syncing;
    SyncingTransitive(s.log, r.log, c.log);
  }

  lemma NewNeededAfter(s: State, r: State, c: State, sids: set<string>)
    requires OnlyCombinedNew(s, r) && ReadOf(s, r) && Stepped(r, c, sids + {COMBINED})
    requires forall i :: i in c.albums && i !in r.albums ==> c.albums[i].marker != Some(COMBINED)
    ensures NewNeeded(s.albums, c.albums, sids)
  {
    hide Grown, LosesOnlyOwn, Unread, Counted, Syncing, Linked, KeysRead;
  }

  lemma ListedKeepsCombined(t: State, u: State, sids: set<string>)
    requires Stepped(t, u, sids) && COMBINED !in sids
    ensures CombinedKept(t, u)
  {
    hide LosesOnlyOwn, Syncing, Unread, Grown;
  }

  lemma ReadFacts(s: State, r: State)
    requires ReadOf(s, r)
    ensures Linked(r) && r.desired == s.desired && r.wants == s.wants && r.missed == s.missed
    ensures r.errors == s.errors && r.deferred == s.deferred && r.assets == s.assets
    ensures UniqueMarkers(r.albums) && OnlyCombinedNew(s, r) ==> OneEach(r)
  {
    hide Linked, KeysRead, Syncing;
  }

  lemma StartingFrame(s: State, t: State)
    requires Starting(s) && t == s.(errors := t.errors)
    ensures Starting(t) && t.desired == {} && t.wants == map[] && t.missed == 0
  {}

  // Safety is about Immich and the log alone.
  lemma SafeFrame(s: State, s': State, t: State, t': State, readings: seq<Reading>)
    requires Safe(s', t, readings) && s.assets == s'.assets && s.albums == s'.albums
    requires t'.assets == t.assets && t'.albums == t.albums && t'.log == t.log
    ensures Safe(s, t', readings)
  {
    hide LosesOnlyOwn, Foreign, StandsFor, Managed, Scraped, Complete, NewNeeded, PhotosFor;
    assert CombinedKept(s', t) ==> CombinedKept(s, t');
    assert ListedKept(s, t', Scraped(readings));
    hide ListedKept, CombinedKept;
    forall n | 0 <= n < |t'.log| ensures WriteAllowed(s, t', readings, n) {
      assert WriteAllowed(s', t, readings, n);
      if t.log[n].Trash? {
        forall a | a in t.log[n].ids ensures TrashedRightly(s, t', Scraped(readings), a) {
          assert TrashedRightly(s', t, Scraped(readings), a);
        }
      }
    }
  }

  // A run from `first` whose list was read when the account was `s`.
  lemma ReadSafely(first: State, s: State, r: State, readings: seq<Reading>)
    requires Starting(s) && OnlyCombinedNew(s, r) && r.assets == s.assets
    requires first.assets == s.assets && first.albums == s.albums
    ensures Safe(first, r, readings)
  {
    hide *;
    CalmRead(s, r, Scraped(readings), Complete(readings));
    CalmIsSafe(s, r, readings);
    SafeFrame(first, s, r, r, readings);
  }

  lemma SyncedSafely(google: map<string, Content>, first: State, s: State, r: State, c: State, readings: seq<Reading>)
    requires Starting(s) && Sound(google, s.assets) && OnlyCombinedNew(s, r) && ReadOf(s, r)
    requires first.assets == s.assets && first.albums == s.albums
    requires Stepped(r, c, Sids(Scraped(readings)) + {COMBINED}) && KeepsListed(r, c, Scraped(readings))
    requires forall i :: i in c.albums && i !in r.albums ==> c.albums[i].marker != Some(COMBINED)
    requires !Complete(readings) ==> CombinedKept(r, c)
    ensures Calm(s, c, Scraped(readings), Complete(readings)) && Safe(first, c, readings)
  {
    hide *;
    CalmSynced(google, s, r, c, Scraped(readings), Complete(readings));
    CalmIsSafe(s, c, readings);
    SafeFrame(first, s, c, c, readings);
  }

  // ---- deleting

  ghost predicate Dropped(s: State, t: State, sids: set<string>) {
    && t == s.(albums := t.albums, log := t.log)
    && (forall i :: i in t.albums ==> i in s.albums && t.albums[i] == s.albums[i])
    && (forall i :: i in s.albums && i !in t.albums ==>
          s.albums[i].marker.Some? && s.albums[i].marker.value in s.ours && s.albums[i].marker.value !in sids
          && s.ours[s.albums[i].marker.value] == i && DeleteAlbum(i, s.albums[i].marker) in t.log)
    && |s.log| <= |t.log| && t.log[..|s.log|] == s.log
    && (forall n :: |s.log| <= n < |t.log| ==>
          t.log[n].DeleteAlbum? && t.log[n].marker.Some? && t.log[n].marker.value != COMBINED && t.log[n].marker.value !in sids)
  }

  ghost predicate Orphan(t: State, a: nat) {
    && (a in t.mine - t.desired
        || (Unalbumed(t.assets, t.albums, a) && a !in t.desired && a !in t.known && t.assets[a].keys.Some?))
    && !Foreign(t.albums, a)
  }

  lemma DroppedIsSafe(s: State, c: State, d: State, readings: seq<Reading>)
    requires Starting(s) && Calm(s, c, Scraped(readings), true) && Dropped(c, d, Sids(Scraped(readings))) && Complete(readings)
    ensures Safe(s, d, readings)
  {
    hide Scraped, Sids, CombinedKept, TrashedRightly, StandsFor, PhotosFor;
    assert ListedKept(s, d, Scraped(readings)) by {
      hide Grown, Syncing, Complete;
      forall i, a | Lost(s.albums, d.albums, i, a)
        ensures !StandsFor(s.assets, a, PhotosFor(Scraped(readings), s.albums[i].marker))
      {
        assert Lost(s.albums, c.albums, i, a);
      }
    }
    assert LosesOnlyOwn(s.albums, d.albums, d.assets) by {
      hide Grown, Syncing, Complete;
      forall i, a | Lost(s.albums, d.albums, i, a)
        ensures s.albums[i].marker.Some? && a in d.assets && d.assets[a].keys.Some?
      {
        assert Lost(s.albums, c.albums, i, a);
      }
    }
    hide LosesOnlyOwn, ListedKept;
    forall n | 0 <= n < |d.log| ensures WriteAllowed(s, d, readings, n) {
      assert n < |c.log| ==> d.log[n] == c.log[n];
    }
  }

  // ---- trashing

  // An orphan's photo is in no readable listed album, if it was in an album of ours.
  lemma OrphanNotListed(google: map<string, Content>, s: State, r: State, l: State, c: State, d: State,
                        scraped: seq<Source>, a: nat)
    requires Sound(google, s.assets) && OnlyCombinedNew(s, r) && ReadOf(s, r)
    requires Progress(r, l, scraped) && Stepped(r, l, Sids(scraped)) && OnlyCombinedTouched(l, c) && Dropped(c, d, Sids(scraped))
    requires Orphan(d, a)
    ensures !StillListed(s, scraped, a)
  {
    if StillListed(s, scraped, a) {
      KnownIsDesired(google, s, r, l, scraped, a);
      var i :| i in s.albums && s.albums[i].marker.Some? && a in Visible(s.assets, s.albums[i].members);
      if i !in r.members {
        UnreadStays(r, l, c, d, scraped, i);
      }
    }
  }

  // After the combined album's turn.
  ghost predicate OnlyCombinedTouched(l: State, c: State) {
    && c == l.(albums := c.albums, log := c.log)
    && l.combined in l.albums && l.combined in c.albums
    && c.albums == l.albums[l.combined := l.albums[l.combined].(members := c.albums[l.combined].members)]
  }

  lemma KnownIsDesired(google: map<string, Content>, s: State, r: State, l: State, scraped: seq<Source>, a: nat)
    requires Sound(google, s.assets) && ReadOf(s, r) && Progress(r, l, scraped)
    requires a in s.assets && StandsFor(s.assets, a, AllPhotos(scraped))
    ensures a in l.known || a in l.mine ==> a in l.desired
  {
    hide Linked, Owned, Fulfilled, ExactAt, Untouched, UnionOfWants, Sound, AllPhotos, Counted, Changed, Sids;
    KnownDesired(r, l, scraped);
    assert l.known == r.known && l.mine <= r.mine + l.desired;
    if a in r.known {
      var k :| k in AllPhotos(scraped) && HasKey(s.assets[a], k);
      assert a in r.mine && k in r.byKey;
      SoundKeysUnique(google, s.assets, a, r.byKey[k], k);
      assert r.byKey[k] in l.desired;
    }
  }

  lemma UnreadStays(r: State, l: State, c: State, d: State, scraped: seq<Source>, i: nat)
    requires Linked(r) && Progress(r, l, scraped) && Stepped(r, l, Sids(scraped))
    requires OnlyCombinedTouched(l, c) && Dropped(c, d, Sids(scraped))
    requires i in r.albums && i !in r.members
    ensures i in d.albums && d.albums[i] == r.albums[i]
  {
    hide Fulfilled, ExactAt, Untouched, UnionOfWants, Owned, Grown, Syncing, LosesOnlyOwn, Sids, Counted;
    assert i in l.albums && i !in l.members;
  }

  // The trash after `part` of the orphans went there.
  ghost predicate TrashedPart(d: State, e: State, part: set<nat>) {
    && e == d.(assets := e.assets, log := d.log + [Trash(part)])
    && e.assets == map a | a in d.assets :: if a in part then d.assets[a].(trashed := true) else d.assets[a]
  }

  lemma SameAlbumsKept(s: State, d: State, e: State, scraped: seq<Source>)
    requires ListedKept(s, d, scraped) && e.albums == d.albums
    ensures ListedKept(s, e, scraped)
  {}

  lemma TrashIsSafe(s: State, d: State, e: State, readings: seq<Reading>, part: set<nat>)
    requires Safe(s, d, readings) && Complete(readings) && TrashedPart(d, e, part)
    requires forall n :: 0 <= n < |d.log| ==> !d.log[n].Trash?
    requires forall a :: a in part ==> a in d.assets && d.assets[a].keys.Some? && !Foreign(d.albums, a)
    requires forall a :: a in part ==> !StillListed(s, Scraped(readings), a)
    ensures Safe(s, e, readings)
  {
    hide StillListed, Scraped, Foreign, CombinedKept, ListedKept, NewNeeded;
    assert ListedKept(s, e, Scraped(readings)) by {
      SameAlbumsKept(s, d, e, Scraped(readings));
    }
    assert LosesOnlyOwn(s.albums, e.albums, e.assets) by {
      hide AssetsKept, WriteAllowed;
    }
    hide LosesOnlyOwn;
    assert e.log[|d.log|] == Trash(part);
    assert AssetsKept(s, e) by {
      hide WriteAllowed, AlbumsKept;
    }
    forall n | 0 <= n < |e.log| ensures WriteAllowed(s, e, readings, n) {
      if n < |d.log| {
        assert e.log[n] == d.log[n] && WriteAllowed(s, d, readings, n);
      }
    }
    assert AlbumsKept(s, e, true);
  }
}
