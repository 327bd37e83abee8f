// What the steps of a mirror run keep and achieve, as relations between the
// states before and after.

module MirrorSteps {
  import opened MirrorStore
  import opened Options

  // Immich and the variables of a run.
  datatype State = State(assets: Assets, albums: Albums, log: seq<Write>,
                         ours: map<string, nat>, combined: nat, members: map<nat, set<nat>>, known: set<nat>,
                         mine: set<nat>, byKey: map<string, nat>, desired: set<nat>, errors: nat, deferred: nat,
                         missed: nat, wants: map<string, set<nat>>)

  // A run that has not begun.
  ghost predicate Starting(s: State) {
    s.log == [] && s.desired == {} && s.members == map[] && s.missed == 0 && s.wants == map[]
  }

  // The dictionaries name albums with the right markers.
  ghost predicate Linked(s: State) {
    && s.combined in s.albums && s.albums[s.combined].marker == Some(COMBINED) && s.combined in s.members
    && (forall m :: m in s.ours ==>
          m != COMBINED && s.ours[m] in s.albums && s.albums[s.ours[m]].marker == Some(m) && s.ours[m] in s.members)
    && (forall i :: i in s.members ==> i in s.albums && s.members[i] <= s.albums[i].members)
  }

  ghost predicate OursMarked(s: State) {
    forall m :: m in s.ours ==> m != COMBINED && s.ours[m] in s.albums && s.albums[s.ours[m]].marker == Some(m)
  }

  // `mine` is ours and not in the trash, and a known key leads to its asset.
  ghost predicate Owned(s: State) {
    && (forall a :: a in s.mine ==> a in s.assets && !s.assets[a].trashed && s.assets[a].keys.Some?)
    && (forall k :: k in s.byKey ==> s.byKey[k] in s.mine && HasKey(s.assets[s.byKey[k]], k))
  }

  // The assets the known photos stand for.
  ghost function Known(byKey: map<string, nat>, photos: seq<string>): set<nat> {
    set k | k in photos && k in byKey :: byKey[k]
  }

  // What importing keeps: assets, keys and `mine` only grow, albums stay.
  ghost predicate Imported(s: State, t: State) {
    && Grown(s.assets, t.assets) && Owned(t) && Syncing(s.log, t.log)
    && t.albums == s.albums && t.ours == s.ours && t.combined == s.combined && t.members == s.members
    && t.known == s.known && t.desired == s.desired && t.wants == s.wants
    && s.mine <= t.mine && (forall k :: k in s.byKey ==> k in t.byKey && t.byKey[k] == s.byKey[k])
    && Counted(s, t)
  }

  // Photos missed are those that failed or were left for later.
  ghost predicate Counted(s: State, t: State) {
    && t.errors >= s.errors && t.deferred >= s.deferred
    && t.missed - s.missed == (t.errors - s.errors) + (t.deferred - s.deferred)
  }

  // At most the album of this source is created or renamed.
  ghost predicate Looked(s: State, t: State, source: Source) {
    && t == s.(albums := t.albums, log := t.log, ours := t.ours, members := t.members)
    && Syncing(s.log, t.log)
    && (forall i :: i in s.albums ==>
          i in t.albums && t.albums[i].marker == s.albums[i].marker && t.albums[i].members == s.albums[i].members)
    && (forall i :: i in s.albums && s.albums[i].marker != Some(source.sid) ==> t.albums[i] == s.albums[i])
    && (forall i :: i in t.albums && i !in s.albums ==> t.albums[i] == Album(source.title, Some(source.sid), {}))
    && (source.sid in s.ours ==> t.albums.Keys == s.albums.Keys) && s.ours.Keys <= t.ours.Keys
    && Unread(s, t)
  }

  ghost predicate Found(s: State, t: State, source: Source, id: nat) {
    && t.ours == s.ours[source.sid := id]
    && (source.sid in s.ours ==> id == s.ours[source.sid] && t.members == s.members)
    && (source.sid !in s.ours ==> id !in s.albums && t.members == s.members[id := {}])
    && id in t.albums && t.albums[id].name == source.title
  }

  // An album the run did not read stays as it is, and is not read later.
  ghost predicate Unread(s: State, t: State) {
    && (forall i :: i in s.albums && i !in s.members ==> i in t.albums && t.albums[i] == s.albums[i])
    && (forall i :: i in t.members && i in s.albums ==> i in s.members)
  }

  predicate MarkedBy(album: Album, sids: set<string>) {
    album.marker.Some? && album.marker.value in sids
  }

  // What the sync of the albums with these markers keeps, finished or not.
  ghost predicate Stepped(s: State, t: State, sids: set<string>) {
    && Grown(s.assets, t.assets) && Syncing(s.log, t.log) && LosesOnlyOwn(s.albums, t.albums, t.assets)
    && (forall i :: i in s.albums ==> i in t.albums && t.albums[i].marker == s.albums[i].marker)
    && (forall i :: i in s.albums && !MarkedBy(s.albums[i], sids) ==> t.albums[i] == s.albums[i])
    && (forall i :: i in t.albums && i !in s.albums ==> MarkedBy(t.albums[i], sids))
    && (forall i :: i in t.albums && i !in s.albums ==> t.albums[i].marker.value !in s.ours)
    && Unread(s, t) && Counted(s, t) && s.ours.Keys <= t.ours.Keys
  }

  // What one album's sync achieves.
  ghost predicate Synced(s: State, t: State, source: Source, want: set<nat>) {
    && source.sid in t.ours && t.ours == s.ours[source.sid := t.ours[source.sid]]
    && (if source.sid in s.ours then t.ours == s.ours else t.ours[source.sid] !in s.albums)
    && t.combined == s.combined && t.known == s.known
    && s.mine <= t.mine && (forall k :: k in s.byKey ==> k in t.byKey && t.byKey[k] == s.byKey[k])
    && t.desired == s.desired + want && t.wants == s.wants[source.sid := want]
    && Collected(s, t, source.photos, want) && Counted(s, t)
    && var id := t.ours[source.sid];
    && id in t.albums && t.albums[id].name == source.title && id in t.members
    && t.members == (if source.sid in s.ours then s.members else s.members[id := {}])[id := t.members[id]]
    && t.albums[id].members == AfterPlan(RawMembers(s, id), SeenMembers(s, id), t.mine, want)
    && t.members[id] == AfterPlan(SeenMembers(s, id), SeenMembers(s, id), t.mine, want)
  }

  // An album's members in Immich, and those the run has seen.
  ghost function RawMembers(s: State, id: nat): set<nat> {
    if id in s.albums then s.albums[id].members else {}
  }

  ghost function SeenMembers(s: State, id: nat): set<nat> {
    if id in s.members then s.members[id] else {}
  }

  // Seen members of ours that are not wanted go, wanted ones come.
  ghost function AfterPlan(raw: set<nat>, seen: set<nat>, mine: set<nat>, want: set<nat>): set<nat> {
    raw - (seen * mine - want) + want
  }

  // An album loses only what it showed and what is none of its known photos.
  ghost predicate LosesUnwanted(s: State, t: State, source: Source) {
    forall i, a :: Lost(s.albums, t.albums, i, a) ==>
      && source.sid in s.ours && i == s.ours[source.sid] && a in SeenMembers(s, i)
      && forall k :: k in source.photos && k in s.byKey ==> s.byKey[k] != a
  }

  // Nothing to do for this source.
  ghost predicate InSync(s: State, source: Source) {
    && source.sid in s.ours && s.ours[source.sid] in s.albums && s.albums[s.ours[source.sid]].name == source.title
    && (forall k :: k in source.photos ==> k in s.byKey)
    && s.ours[source.sid] in s.members && s.members[s.ours[source.sid]] == Known(s.byKey, source.photos)
  }

  lemma ImportedSelf(s: State)
    requires Owned(s)
    ensures Imported(s, s)
  {}

  // What asking for one photo finds: the known asset, or one just imported,
  // which is all that changed, or nothing, and it was missed.
  ghost predicate Asked(s: State, t: State, key: string, found: Option<nat>) {
    && (found.Some? ==>
          && found.value in t.mine && found.value in t.assets && HasKey(t.assets[found.value], key)
          && Changed(s.assets, t.assets) <= {found.value} && t.mine <= s.mine + {found.value})
    && (found.None? ==> t.missed > s.missed && t.mine == s.mine)
    && (key in s.byKey ==> found == Some(s.byKey[key]) && t == s)
  }

  lemma AskedKey(s: State, t: State, key: string, found: Option<nat>)
    requires Asked(s, t, key, found) && key in s.byKey
    ensures found == Some(s.byKey[key]) && t == s
  {}

  lemma AskedKnown(s: State, key: string)
    requires Owned(s) && key in s.byKey
    ensures Imported(s, s) && Asked(s, s, key, Some(s.byKey[key]))
  {
    ImportedSelf(s);
    assert Changed(s.assets, s.assets) == {};
  }

  lemma AskedNew(s: State, t: State, key: string, id: nat)
    requires Owned(s) && Grown(s.assets, t.assets) && Syncing(s.log, t.log) && key !in s.byKey
    requires id in t.assets && !t.assets[id].trashed && HasKey(t.assets[id], key) && Changed(s.assets, t.assets) <= {id}
    requires t == s.(assets := t.assets, log := t.log, byKey := s.byKey[key := id], mine := s.mine + {id})
    ensures Imported(s, t) && Asked(s, t, key, Some(id))
  {
    hide Grown, Syncing, Changed;
    GrownFacts(s.assets, t.assets);
  }

  lemma AskedInVain(s: State, t: State, key: string)
    requires Owned(s) && Grown(s.assets, t.assets) && Syncing(s.log, t.log) && key !in s.byKey
    requires Counted(s, t) && t.missed > s.missed
    requires t == s.(assets := t.assets, log := t.log, errors := t.errors, deferred := t.deferred, missed := t.missed)
    ensures Imported(s, t) && Asked(s, t, key, None)
  {
    hide Grown, Syncing;
    GrownFacts(s.assets, t.assets);
  }

  lemma ImportedTransitive(s: State, t: State, u: State)
    requires Imported(s, t) && Imported(t, u)
    ensures Imported(s, u)
  {
    hide Grown, Owned;
    GrownTransitive(s.assets, t.assets, u.assets);
  }

  lemma OwnedOf(s: State, t: State)
    requires Imported(s, t)
    ensures Owned(t)
  {}

  lemma ImportedFacts(s: State, t: State)
    requires Imported(s, t)
    ensures Owned(t) && t.albums == s.albums && s.mine <= t.mine
    ensures forall x, k :: x in s.assets && HasKey(s.assets[x], k) ==> x in t.assets && HasKey(t.assets[x], k)
    ensures forall k :: k in s.byKey ==> k in t.byKey && t.byKey[k] == s.byKey[k]
    ensures Counted(s, t)
  {}

  // `want` holds our assets of these photos: each known one, and all when
  // nothing was missed, which then are all that changed.
  ghost predicate Collected(s: State, t: State, photos: seq<string>, want: set<nat>) {
    && want <= t.mine <= s.mine + want
    && (forall a :: a in want ==> StandsFor(t.assets, a, PhotoSet(photos)))
    && (forall k :: k in photos && k in s.byKey ==> s.byKey[k] in want)
    && (t.missed == s.missed ==>
          (forall k :: k in photos ==> Shown(t.assets, want, k)) && Changed(s.assets, t.assets) <= want)
  }

  // No more than `before` but for writes that neither delete an album nor trash.
  ghost predicate Syncing(before: seq<Write>, after: seq<Write>) {
    && |before| <= |after| && after[..|before|] == before
    && forall i :: |before| <= i < |after| ==> !after[i].Trash? && !after[i].DeleteAlbum?
  }

  ghost predicate Lost(before: Albums, after: Albums, i: nat, a: nat) {
    i in before && i in after && a in before[i].members && a !in after[i].members
  }

  // What albums lost is ours, and it was taken from albums with a marker.
  ghost predicate LosesOnlyOwn(before: Albums, after: Albums, assets: Assets) {
    forall i, a :: Lost(before, after, i, a) ==> before[i].marker.Some? && a in assets && assets[a].keys.Some?
  }

  lemma LookedSteps(s: State, t: State, source: Source)
    requires Looked(s, t, source)
    ensures Stepped(s, t, {source.sid})
  {}

  lemma LinkedOurs(s: State, sid: string)
    requires Linked(s)
    ensures sid in s.ours ==> s.ours[sid] in s.albums && s.albums[s.ours[sid]].marker == Some(sid)
  {}

  lemma RenamedAlbum(s: State, t: State, source: Source, id: nat)
    requires Linked(s) && source.sid in s.ours && id == s.ours[source.sid] && id in s.albums
    requires t == s.(albums := t.albums, log := t.log) && Syncing(s.log, t.log)
    requires t.albums == s.albums || t.albums == s.albums[id := s.albums[id].(name := source.title)]
    ensures Looked(s, t, source)
    ensures id in t.albums && t.albums[id].name == source.title ==> Linked(t) && Found(s, t, source, id)
  {
    assert s.ours[source.sid := id] == s.ours;
    hide Syncing, Linked;
    LinkedOurs(s, source.sid);
    RenamedLinked(s, t, source.title, id);
  }

  lemma RenamedLinked(s: State, t: State, name: string, id: nat)
    requires Linked(s) && id in s.albums && t == s.(albums := t.albums, log := t.log)
    requires t.albums == s.albums || t.albums == s.albums[id := s.albums[id].(name := name)]
    ensures Linked(t)
  {}

  lemma CreatedAlbum(s: State, t: State, source: Source, id: nat, ok: bool)
    requires Linked(s) && source.sid !in s.ours && source.sid != COMBINED
    requires t == s.(albums := t.albums, log := t.log, ours := t.ours, members := t.members) && Syncing(s.log, t.log)
    requires forall i :: i in s.albums ==> i in t.albums && t.albums[i] == s.albums[i]
    requires forall i :: i in t.albums && i !in s.albums ==> t.albums[i] == Album(source.title, Some(source.sid), {})
    requires ok ==> id in t.albums && id !in s.albums && t.ours == s.ours[source.sid := id] && t.members == s.members[id := {}]
    requires !ok ==> t.ours == s.ours && t.members == s.members
    ensures Looked(s, t, source)
    ensures ok ==> Linked(t) && Found(s, t, source, id)
  {
    hide Syncing, Linked;
    if ok {
      CreatedLinked(s, t, source, id);
    }
    assert Unread(s, t) by {
      assert forall i :: i in s.members ==> i in s.albums by {
        LinkedMembers(s);
      }
    }
  }

  lemma LinkedMembers(s: State)
    requires Linked(s)
    ensures forall i :: i in s.members ==> i in s.albums
  {}

  lemma CreatedLinked(s: State, t: State, source: Source, id: nat)
    requires Linked(s) && source.sid !in s.ours && source.sid != COMBINED && t.combined == s.combined
    requires forall i :: i in s.albums ==> i in t.albums && t.albums[i] == s.albums[i]
    requires id in t.albums && t.albums[id] == Album(source.title, Some(source.sid), {})
    requires id !in s.albums && t.ours == s.ours[source.sid := id] && t.members == s.members[id := {}]
    ensures Linked(t)
  {}

  lemma OwnedFrame(s: State, t: State, source: Source)
    requires Owned(s) && Looked(s, t, source)
    ensures Owned(t) && t.assets == s.assets && t.byKey == s.byKey && t.desired == s.desired
  {}

  lemma FoundFacts(s: State, f: State, c: State, source: Source, id: nat)
    requires Linked(s) && Linked(f) && Looked(s, f, source) && Found(s, f, source, id) && Imported(f, c)
    ensures id in c.albums && id in c.members && Owned(c) && Linked(c)
    ensures id in f.albums && f.albums[id].marker == Some(source.sid)
  {}

  // The state after applying the plan; `c` is the one it was made in.
  ghost predicate AppliedTo(c: State, t: State, sid: string, id: nat, want: set<nat>, ok: bool) {
    && id in c.albums && id in t.albums && id in c.members
    && t == c.(albums := t.albums, log := t.log, members := t.members, desired := t.desired, wants := t.wants)
    && t.members.Keys == c.members.Keys && Syncing(c.log, t.log)
    && t.albums == c.albums[id := c.albums[id].(members := t.albums[id].members)]
    && var (add, remove) := PlanAlbum(want, c.members[id], c.mine);
    && c.albums[id].members - remove <= t.albums[id].members <= c.albums[id].members + add
    && (ok ==> && t.albums[id].members == c.albums[id].members + add - remove
               && t.members == c.members[id := c.members[id] - remove + add]
               && t.desired == c.desired + want && t.wants == c.wants[sid := want])
  }

  lemma AppliedSteps(s: State, f: State, c: State, t: State, source: Source, id: nat, want: set<nat>, ok: bool)
    requires Looked(s, f, source) && Imported(f, c) && AppliedTo(c, t, source.sid, id, want, ok)
    requires id in f.albums && f.albums[id].marker == Some(source.sid)
    ensures Stepped(s, t, {source.sid})
  {
    hide *;
    LookedSteps(s, f, source);
    ImportedSteps(f, c);
    AppliedOwned(f, c, t, source, id, want, ok);
    SteppedTransitive(s, f, c, {source.sid}, {});
    assert {source.sid} + {} == {source.sid} + {source.sid} == {source.sid};
    PlanSteps(c, t, source.sid, id, want, ok);
    SteppedTransitive(s, c, t, {source.sid}, {source.sid});
  }

  lemma AppliedOwned(f: State, c: State, t: State, source: Source, id: nat, want: set<nat>, ok: bool)
    requires Imported(f, c) && AppliedTo(c, t, source.sid, id, want, ok)
    requires id in f.albums && f.albums[id].marker == Some(source.sid)
    ensures Owned(c) && id in c.albums && c.albums[id].marker == Some(source.sid)
  {}

  lemma ImportedSteps(f: State, c: State)
    requires Imported(f, c)
    ensures Stepped(f, c, {})
  {}

  lemma PlanSteps(c: State, t: State, sid: string, id: nat, want: set<nat>, ok: bool)
    requires Owned(c) && AppliedTo(c, t, sid, id, want, ok) && c.albums[id].marker == Some(sid)
    ensures Stepped(c, t, {sid})
  {
    hide Syncing;
    GrownSelf(c.assets);
    assert forall a :: a in c.albums[id].members && a !in t.albums[id].members ==> a in c.mine;
  }

  lemma AppliedLinked(c: State, t: State, sid: string, id: nat, want: set<nat>)
    requires Linked(c) && Owned(c) && AppliedTo(c, t, sid, id, want, true)
    ensures Linked(t) && Owned(t)
  {}

  lemma AppliedSynced(s: State, f: State, c: State, t: State, source: Source, id: nat, want: set<nat>)
    requires Linked(s) && Looked(s, f, source) && Found(s, f, source, id)
    requires Imported(f, c) && Collected(f, c, source.photos, want) && AppliedTo(c, t, source.sid, id, want, true)
    ensures Synced(s, t, source, want)
  {
    assert Collected(s, t, source.photos, want) by {
      hide *;
      CollectedFrame(s, f, c, t, source, want);
    }
    hide Grown, Syncing, Owned, Unread, Collected;
    AppliedMembers(s, f, c, t, source, id, want);
  }

  lemma AppliedMembers(s: State, f: State, c: State, t: State, source: Source, id: nat, want: set<nat>)
    requires Linked(s) && Looked(s, f, source) && Found(s, f, source, id)
    requires Imported(f, c) && AppliedTo(c, t, source.sid, id, want, true)
    ensures t.albums[id].members == AfterPlan(RawMembers(s, id), SeenMembers(s, id), t.mine, want)
    ensures t.members[id] == AfterPlan(SeenMembers(s, id), SeenMembers(s, id), t.mine, want)
  {
    hide Grown, Syncing, Owned, Unread;
    var seen, raw := c.members[id], c.albums[id].members;
    assert seen == SeenMembers(s, id) && raw == RawMembers(s, id);
    assert seen <= raw;
  }

  // Whatever became of the sync, a known photo's asset was not taken from its album.
  lemma AppliedLoses(s: State, f: State, c: State, t: State, source: Source, id: nat, want: set<nat>, ok: bool)
    requires Linked(s) && Looked(s, f, source) && Found(s, f, source, id)
    requires Imported(f, c) && Collected(f, c, source.photos, want) && AppliedTo(c, t, source.sid, id, want, ok)
    ensures LosesUnwanted(s, t, source)
  {
    hide Grown, Syncing, Owned, Unread;
    forall i, a | Lost(s.albums, t.albums, i, a)
      ensures source.sid in s.ours && i == s.ours[source.sid] && a in SeenMembers(s, i)
      ensures forall k :: k in source.photos && k in s.byKey ==> s.byKey[k] != a
    {
      assert i == id && a in c.members[id] && a !in want;
    }
  }

  lemma LooksOnly(s: State, f: State, source: Source)
    requires Looked(s, f, source)
    ensures LosesUnwanted(s, f, source)
  {}

  lemma CollectedFrame(s: State, f: State, c: State, t: State, source: Source, want: set<nat>)
    requires Looked(s, f, source) && Collected(f, c, source.photos, want)
    requires t == c.(albums := t.albums, log := t.log, members := t.members, desired := t.desired, wants := t.wants)
    ensures Collected(s, t, source.photos, want)
  {}

  lemma CollectedNone(s: State)
    ensures Collected(s, s, [], {}) && Known(s.byKey, []) == {}
  {}

  lemma CollectedStep(s: State, t: State, u: State, photos: seq<string>, key: string, want: set<nat>, found: Option<nat>)
    requires Imported(s, t) && Imported(t, u) && Collected(s, t, photos, want)
    requires Asked(t, u, key, found)
    ensures Collected(s, u, photos + [key], if found.Some? then want + {found.value} else want)
  {
    hide Imported, StandsFor, Shown;
    ImportedFacts(s, t);
    ImportedFacts(t, u);
    assert Grown(s.assets, t.assets) && Grown(t.assets, u.assets) && Counted(s, t) && Counted(t, u) by {
      ImportedGrows(s, t);
      ImportedGrows(t, u);
    }
    var now := if found.Some? then want + {found.value} else want;
    assert KeysKept(t.assets, u.assets);
    forall a | a in now ensures StandsFor(u.assets, a, PhotoSet(photos + [key])) {
      if a in want {
        StandsForMore(t.assets, u.assets, a, PhotoSet(photos), PhotoSet(photos + [key]));
      } else {
        assert StandsFor(u.assets, a, PhotoSet(photos + [key])) by {
          assert key in PhotoSet(photos + [key]);
          StandsForKey(u.assets, a, key, PhotoSet(photos + [key]));
        }
      }
    }
    if u.missed == s.missed {
      ChangedBoth(s.assets, t.assets, u.assets);
      forall k | k in photos + [key] ensures Shown(u.assets, now, k) {
        if k in photos {
          ShownMore(t.assets, u.assets, want, now, k);
        } else {
          ShownBy(u.assets, now, found.value, k);
        }
      }
    }
  }

  lemma NoneChanged(before: Assets, after: Assets)
    requires forall x :: x in before ==> x in after && after[x] == before[x]
    ensures Changed(before, after) == {}
  {}

  lemma ImportedGrows(s: State, t: State)
    requires Imported(s, t)
    ensures Grown(s.assets, t.assets) && Counted(s, t)
  {}

  lemma ChangedBoth(a: Assets, b: Assets, c: Assets)
    requires Grown(a, b) && Grown(b, c)
    ensures Changed(a, c) <= Changed(a, b) + Changed(b, c)
  {}

  ghost predicate KeysKept(before: Assets, after: Assets) {
    forall x, k :: x in before && HasKey(before[x], k) ==> x in after && HasKey(after[x], k)
  }

  lemma StandsForKey(assets: Assets, a: nat, k: string, photos: set<string>)
    requires a in assets && k in photos && HasKey(assets[a], k)
    ensures StandsFor(assets, a, photos)
  {}

  lemma ShownBy(assets: Assets, members: set<nat>, a: nat, k: string)
    requires a in members && a in assets && HasKey(assets[a], k)
    ensures Shown(assets, members, k)
  {}

  lemma StandsForMore(before: Assets, after: Assets, a: nat, photos: set<string>, more: set<string>)
    requires KeysKept(before, after) && StandsFor(before, a, photos) && photos <= more
    ensures StandsFor(after, a, more)
  {
    var k :| k in photos && HasKey(before[a], k);
    assert HasKey(after[a], k);
  }

  lemma ShownMore(before: Assets, after: Assets, members: set<nat>, more: set<nat>, k: string)
    requires KeysKept(before, after) && Shown(before, members, k) && members <= more
    ensures Shown(after, more, k)
  {
    var a :| a in members && a in before && HasKey(before[a], k);
    assert HasKey(after[a], k);
  }

  lemma KnownStep(byKey: map<string, nat>, photos: seq<string>, key: string)
    requires key in byKey
    ensures Known(byKey, photos + [key]) == Known(byKey, photos) + {byKey[key]}
  {}

  lemma SoundNewAsset(google: map<string, Content>, assets: Assets, id: nat, key: string)
    requires Sound(google, assets) && id !in assets && key in google
    requires forall x :: x in assets ==> assets[x].content != google[key]
    ensures Sound(google, assets[id := Asset(google[key], Some({key}), false)])
    ensures Grown(assets, assets[id := Asset(google[key], Some({key}), false)])
  {}

  lemma SoundMoreKeys(google: map<string, Content>, assets: Assets, id: nat, key: string)
    requires Sound(google, assets) && id in assets && key in google && assets[id].content == google[key]
    ensures var keys := (if assets[id].keys.Some? then assets[id].keys.value else {}) + {key};
            && Sound(google, assets[id := assets[id].(keys := Some(keys))])
            && Grown(assets, assets[id := assets[id].(keys := Some(keys))])
  {}

  lemma SoundRestored(google: map<string, Content>, assets: Assets, id: nat)
    requires Sound(google, assets) && id in assets
    ensures Sound(google, assets[id := assets[id].(trashed := false)])
    ensures Grown(assets, assets[id := assets[id].(trashed := false)])
  {}

  lemma GrownFacts(before: Assets, after: Assets)
    requires Grown(before, after)
    ensures forall x :: x in before ==> x in after && (!before[x].trashed ==> !after[x].trashed)
    ensures forall x :: x in before && before[x].keys.Some? ==> after[x].keys.Some?
    ensures forall x, k :: x in before && HasKey(before[x], k) ==> HasKey(after[x], k)
  {}

  lemma GrownSelf(assets: Assets)
    ensures Grown(assets, assets)
  {}

  // ---- all listed albums

  // The listed albums so far: `desired` is what they want.
  ghost predicate Progress(s: State, t: State, done: seq<Source>) {
    && Linked(t) && Owned(t) && Counted(s, t)
    && t.ours.Keys == s.ours.Keys + Sids(done) && (forall m :: m in s.ours ==> t.ours[m] == s.ours[m])
    && t.combined == s.combined && t.known == s.known
    && t.desired <= t.mine && s.mine <= t.mine <= s.mine + t.desired
    && (forall k :: k in s.byKey ==> k in t.byKey && t.byKey[k] == s.byKey[k])
    && Untouched(s, t, done) && t.wants.Keys == Sids(done) && UnionOfWants(t)
    && (forall d :: d in done ==> Fulfilled(s, t, d))
    && (forall p :: 0 <= p < |done| ==> ExactAt(s, t, done, p))
    && (t.missed == s.missed ==> Changed(s.assets, t.assets) <= t.desired)
  }

  // The run has not come to these albums yet.
  ghost predicate Untouched(s: State, t: State, done: seq<Source>) {
    && SeenMembers(t, s.combined) == SeenMembers(s, s.combined)
    && (forall m :: m in s.ours && m !in Sids(done) ==> SeenMembers(t, s.ours[m]) == SeenMembers(s, s.ours[m]))
  }

  ghost predicate UnionOfWants(t: State) {
    forall a :: a in t.desired <==> exists m :: m in t.wants && a in t.wants[m]
  }

  // One listed album as the run leaves it: what was out of sight stays, what is
  // wanted comes, and of what it showed only what is not ours stays besides.
  ghost predicate Fulfilled(s: State, t: State, d: Source) {
    && d.sid in t.wants && d.sid in t.ours && t.ours[d.sid] in t.albums && t.albums[t.ours[d.sid]].name == d.title
    && var id, want := t.ours[d.sid], t.wants[d.sid];
    && want <= t.mine && Wanted(s, t, d, want)
    && Hidden(s, id) + want <= t.albums[id].members
    && t.albums[id].members <= Leftover(s, id) + want
  }

  // Assets of the source's photos: each known one, and all if nothing was missed.
  ghost predicate Wanted(s: State, t: State, d: Source, want: set<nat>) {
    && (forall a :: a in want ==> StandsFor(t.assets, a, PhotoSet(d.photos)))
    && (forall k :: k in d.photos && k in s.byKey ==> s.byKey[k] in want)
    && (t.missed == s.missed ==> forall k :: k in d.photos ==> Shown(t.assets, want, k))
  }

  // One that is not ours goes as soon as its photo was wanted by an album synced
  // before, or by this one.
  ghost predicate ExactAt(s: State, t: State, done: seq<Source>, p: nat)
    requires p < |done|
  {
    && done[p].sid in t.wants && done[p].sid in t.ours && t.ours[done[p].sid] in t.albums
    && var id := t.ours[done[p].sid];
       t.albums[id].members ==
       AfterPlan(RawMembers(s, id), SeenMembers(s, id), s.mine + WantedBy(t.wants, done[..p + 1]), t.wants[done[p].sid])
  }

  ghost function WantedBy(wants: map<string, set<nat>>, done: seq<Source>): set<nat> {
    set d, a | d in done && d.sid in wants && a in wants[d.sid] :: a
  }

  lemma WantedByAll(t: State, done: seq<Source>)
    requires UnionOfWants(t) && t.wants.Keys == Sids(done)
    ensures t.desired == WantedBy(t.wants, done)
  {
    forall a ensures a in t.desired <==> a in WantedBy(t.wants, done) {
      if a in t.desired {
        var m :| m in t.wants && a in t.wants[m];
        var d :| d in done && d.sid == m;
        assert a in WantedBy(t.wants, done);
      }
    }
  }

  lemma WantedByFrame(wants: map<string, set<nat>>, done: seq<Source>, sid: string, want: set<nat>)
    requires sid !in Sids(done)
    ensures WantedBy(wants[sid := want], done) == WantedBy(wants, done)
  {
    assert forall d :: d in done ==> d.sid != sid;
    var after := wants[sid := want];
    forall a ensures a in WantedBy(after, done) <==> a in WantedBy(wants, done) {
      if a in WantedBy(after, done) {
        var d :| d in done && d.sid in after && a in after[d.sid];
      }
      if a in WantedBy(wants, done) {
        var d :| d in done && d.sid in wants && a in wants[d.sid];
        assert d.sid in after && a in after[d.sid];
      }
    }
  }

  ghost function Hidden(s: State, id: nat): set<nat> {
    RawMembers(s, id) - SeenMembers(s, id)
  }

  ghost function Leftover(s: State, id: nat): set<nat> {
    RawMembers(s, id) - SeenMembers(s, id) * s.mine
  }

  lemma NoProgress(s: State)
    requires Linked(s) && Owned(s) && s.desired == {} && s.wants == map[]
    ensures Progress(s, s, [])
  {
    assert s.ours.Keys + Sids([]) == s.ours.Keys;
  }

  lemma SidsStep(done: seq<Source>, source: Source)
    ensures Sids(done + [source]) == Sids(done) + {source.sid}
  {}

  // The other listed albums are left alone.
  lemma OtherAlbum(t: State, u: State, source: Source, want: set<nat>, sid: string)
    requires Linked(t) && Linked(u) && Stepped(t, u, {source.sid}) && Synced(t, u, source, want)
    requires sid in t.ours && sid != source.sid
    ensures u.ours[sid] == t.ours[sid] && u.ours[sid] != u.ours[source.sid]
    ensures var id := u.ours[sid];
            && id in t.members && id in u.members && u.members[id] == t.members[id]
            && id in t.albums && id in u.albums && u.albums[id] == t.albums[id]
  {
    hide Grown, Collected, LosesOnlyOwn, Unread, Syncing, Counted;
  }

  lemma CombinedAlone(t: State, u: State, source: Source, want: set<nat>)
    requires Linked(t) && Linked(u) && Stepped(t, u, {source.sid}) && Synced(t, u, source, want) && source.sid != COMBINED
    ensures SeenMembers(u, t.combined) == SeenMembers(t, t.combined)
  {
    hide Grown, Collected, LosesOnlyOwn, Unread, Syncing, Counted;
  }

  lemma WantedStays(s: State, t: State, u: State, d: Source, want: set<nat>)
    requires Wanted(s, t, d, want) && Grown(t.assets, u.assets) && Counted(s, t) && Counted(t, u)
    ensures Wanted(s, u, d, want)
  {
    hide Grown, StandsFor, Shown;
    GrownFacts(t.assets, u.assets);
    assert KeysKept(t.assets, u.assets);
    forall a | a in want ensures StandsFor(u.assets, a, PhotoSet(d.photos)) {
      StandsForMore(t.assets, u.assets, a, PhotoSet(d.photos), PhotoSet(d.photos));
    }
    if u.missed == s.missed {
      forall k | k in d.photos ensures Shown(u.assets, want, k) {
        ShownMore(t.assets, u.assets, want, want, k);
      }
    }
  }

  lemma WantedNow(s: State, t: State, u: State, source: Source, want: set<nat>)
    requires Collected(t, u, source.photos, want) && Counted(s, t) && Counted(t, u)
    requires forall k :: k in s.byKey ==> k in t.byKey && t.byKey[k] == s.byKey[k]
    ensures Wanted(s, u, source, want) && want <= u.mine
  {
    hide StandsFor, Shown;
  }

  // The album just synced, which the run had not touched before.
  lemma FulfilledNow(s: State, t: State, u: State, done: seq<Source>, source: Source, want: set<nat>)
    requires Linked(s) && Linked(t) && Progress(s, t, done) && Stepped(s, t, Sids(done)) && source.sid !in Sids(done)
    requires Linked(u) && Synced(t, u, source, want) && Stepped(t, u, {source.sid})
    ensures Fulfilled(s, u, source)
  {
    assert Counted(s, t) && Counted(t, u);
    WantedNow(s, t, u, source, want);
    var id := u.ours[source.sid];
    BeforeSync(s, t, u, done, source, want);
    hide Linked, Owned, Grown, Unread, LosesOnlyOwn, Syncing, Collected, Wanted, Fulfilled, ExactAt, Untouched, UnionOfWants, Stepped, Counted;
    assert s.mine <= u.mine;
    PlanBounds(RawMembers(s, id), SeenMembers(s, id), s.mine, u.mine, want);
    assert Fulfilled(s, u, source) by {
      FulfilledBy(s, u, source, want);
    }
  }

  lemma FulfilledBy(s: State, u: State, d: Source, want: set<nat>)
    requires d.sid in u.wants && u.wants[d.sid] == want && d.sid in u.ours && u.ours[d.sid] in u.albums
    requires u.albums[u.ours[d.sid]].name == d.title && want <= u.mine && Wanted(s, u, d, want)
    requires Hidden(s, u.ours[d.sid]) + want <= u.albums[u.ours[d.sid]].members <= Leftover(s, u.ours[d.sid]) + want
    ensures Fulfilled(s, u, d)
  {
    hide Wanted, Hidden, Leftover;
  }

  lemma PlanBounds(raw: set<nat>, seen: set<nat>, mine: set<nat>, more: set<nat>, want: set<nat>)
    requires mine <= more
    ensures raw - seen + want <= AfterPlan(raw, seen, more, want) <= raw - seen * mine + want
  {}

  // Before its sync an album is as the run read it.
  lemma BeforeSync(s: State, t: State, u: State, done: seq<Source>, source: Source, want: set<nat>)
    requires Linked(s) && Linked(t) && Progress(s, t, done) && Stepped(s, t, Sids(done)) && source.sid !in Sids(done)
    requires Linked(u) && Synced(t, u, source, want) && Stepped(t, u, {source.sid})
    ensures var id := u.ours[source.sid];
            RawMembers(t, id) == RawMembers(s, id) && SeenMembers(t, id) == SeenMembers(s, id)
  {
    hide Owned, Grown, LosesOnlyOwn, Syncing, Collected, Fulfilled, ExactAt, UnionOfWants, Counted;
    var id := u.ours[source.sid];
    if source.sid in t.ours {
      assert source.sid in s.ours && id == s.ours[source.sid];
      assert s.albums[id].marker == Some(source.sid);
      assert t.albums[id] == s.albums[id];
    } else {
      assert id !in t.albums && id !in s.albums;
    }
  }

  lemma FulfilledStays(s: State, t: State, u: State, done: seq<Source>, source: Source, want: set<nat>, d: Source)
    requires Linked(t) && Linked(u) && Progress(s, t, done) && Synced(t, u, source, want) && Stepped(t, u, {source.sid})
    requires d in done && d.sid != source.sid
    ensures Fulfilled(s, u, d)
  {
    hide Linked, Owned, Grown, Unread, LosesOnlyOwn, Syncing, Collected, Wanted, Untouched, UnionOfWants, Fulfilled, ExactAt, Counted;
    assert Fulfilled(s, t, d) && Counted(s, t) && Counted(t, u) && Grown(t.assets, u.assets);
    assert d.sid in t.ours && d.sid in t.wants && Wanted(s, t, d, t.wants[d.sid]) by {
      FulfilledHas(s, t, d);
    }
    OtherAlbum(t, u, source, want, d.sid);
    WantedStays(s, t, u, d, t.wants[d.sid]);
    assert t.mine <= u.mine && u.wants[d.sid] == t.wants[d.sid];
    hide Progress, Stepped, Synced;
    FulfilledFrame(s, t, u, d);
  }

  lemma FulfilledHas(s: State, t: State, d: Source)
    requires Fulfilled(s, t, d)
    ensures d.sid in t.ours && d.sid in t.wants && Wanted(s, t, d, t.wants[d.sid])
  {}

  lemma FulfilledFrame(s: State, t: State, u: State, d: Source)
    requires Fulfilled(s, t, d) && t.mine <= u.mine && d.sid in u.wants && u.wants[d.sid] == t.wants[d.sid]
    requires d.sid in u.ours && u.ours[d.sid] == t.ours[d.sid] && u.ours[d.sid] in u.albums
    requires u.albums[u.ours[d.sid]] == t.albums[t.ours[d.sid]] && Wanted(s, u, d, u.wants[d.sid])
    ensures Fulfilled(s, u, d)
  {
    hide Hidden, Leftover;
  }

  lemma ExactStays(s: State, t: State, u: State, done: seq<Source>, source: Source, want: set<nat>, p: nat)
    requires Linked(t) && Linked(u) && Progress(s, t, done) && Synced(t, u, source, want) && Stepped(t, u, {source.sid})
    requires p < |done| && source.sid !in Sids(done)
    ensures ExactAt(s, u, done + [source], p)
  {
    hide *;
    ExactHas(s, t, done, p);
    SidsHas(done, done[p]);
    OtherAlbum(t, u, source, want, done[p].sid);
    SidsWithin(done, p + 1);
    WantedByFrame(t.wants, done[..p + 1], source.sid, want);
    SyncedWants(t, u, source, want);
    assert (done + [source])[..p + 1] == done[..p + 1];
    ExactFrame(s, t, u, done, source, p);
  }

  lemma ExactHas(s: State, t: State, done: seq<Source>, p: nat)
    requires Progress(s, t, done) && p < |done|
    ensures ExactAt(s, t, done, p) && done[p].sid in t.wants && done[p].sid in t.ours && t.ours[done[p].sid] in t.albums
  {
    hide Linked, Owned, Untouched, UnionOfWants, Fulfilled, Counted;
  }

  lemma SyncedWants(t: State, u: State, source: Source, want: set<nat>)
    requires Synced(t, u, source, want)
    ensures u.wants == t.wants[source.sid := want] && u.desired == t.desired + want && source.sid in u.ours && t.ours.Keys <= u.ours.Keys
    ensures u.ours[source.sid] in u.albums
    ensures var id := u.ours[source.sid];
            u.albums[id].members == AfterPlan(RawMembers(t, id), SeenMembers(t, id), u.mine, want)
  {
    hide Collected, Counted;
  }

  lemma ExactFrame(s: State, t: State, u: State, done: seq<Source>, source: Source, p: nat)
    requires p < |done| && ExactAt(s, t, done, p)
    requires var sid := done[p].sid;
             && sid in u.wants && sid in t.wants && u.wants[sid] == t.wants[sid]
             && sid in u.ours && sid in t.ours && u.ours[sid] == t.ours[sid]
             && u.ours[sid] in u.albums && u.ours[sid] in t.albums && u.albums[u.ours[sid]] == t.albums[t.ours[sid]]
    requires WantedBy(u.wants, (done + [source])[..p + 1]) == WantedBy(t.wants, done[..p + 1])
    ensures ExactAt(s, u, done + [source], p)
  {
    hide AfterPlan, WantedBy, RawMembers, SeenMembers;
  }

  lemma ExactNow(s: State, t: State, u: State, done: seq<Source>, source: Source, want: set<nat>)
    requires Linked(s) && Linked(t) && Progress(s, t, done) && Stepped(s, t, Sids(done)) && source.sid !in Sids(done)
    requires Linked(u) && Synced(t, u, source, want) && Stepped(t, u, {source.sid}) && UnionOfWants(u)
    ensures ExactAt(s, u, done + [source], |done|)
  {
    hide *;
    BeforeSync(s, t, u, done, source, want);
    SyncedWants(t, u, source, want);
    SidsStep(done, source);
    assert (done + [source])[..|done| + 1] == done + [source];
    WantsKeys(s, t, done);
    WantedByAll(u, done + [source]);
    MineIsDesired(s, t, u, done, source, want);
    ExactBy(s, u, done + [source], |done|, want);
  }

  lemma WantsKeys(s: State, t: State, done: seq<Source>)
    requires Progress(s, t, done)
    ensures t.wants.Keys == Sids(done)
  {
    hide Linked, Owned, Untouched, UnionOfWants, Fulfilled, ExactAt, Counted;
  }

  lemma MineIsDesired(s: State, t: State, u: State, done: seq<Source>, source: Source, want: set<nat>)
    requires Progress(s, t, done) && Synced(t, u, source, want)
    ensures u.mine == s.mine + u.desired
  {
    CollectedMine(t, u, source, want);
    hide Linked, Owned, Untouched, UnionOfWants, Fulfilled, ExactAt, Counted, Collected, AfterPlan;
  }

  lemma ExactBy(s: State, u: State, done: seq<Source>, p: nat, want: set<nat>)
    requires p < |done| && done[p].sid in u.ours && done[p].sid in u.wants && u.wants[done[p].sid] == want
    requires u.ours[done[p].sid] in u.albums && u.mine == s.mine + WantedBy(u.wants, done[..p + 1])
    requires var id := u.ours[done[p].sid];
             u.albums[id].members == AfterPlan(RawMembers(s, id), SeenMembers(s, id), u.mine, want)
    ensures ExactAt(s, u, done, p)
  {
    hide AfterPlan, WantedBy, RawMembers, SeenMembers;
  }

  lemma UntouchedStep(s: State, t: State, u: State, done: seq<Source>, source: Source, want: set<nat>)
    requires Linked(s) && Linked(t) && Linked(u) && Progress(s, t, done) && Synced(t, u, source, want)
    requires Stepped(t, u, {source.sid}) && source.sid != COMBINED
    ensures Untouched(s, u, done + [source])
  {
    SidsStep(done, source);
    CombinedAlone(t, u, source, want);
    forall m | m in s.ours && m !in Sids(done + [source])
      ensures SeenMembers(u, s.ours[m]) == SeenMembers(s, s.ours[m])
    {
      OtherAlbum(t, u, source, want, m);
      hide Linked, Owned, Grown, Unread, LosesOnlyOwn, Syncing, Collected, Fulfilled, ExactAt, UnionOfWants, Stepped, Synced, Counted;
      assert t.ours[m] == s.ours[m] && SeenMembers(t, s.ours[m]) == SeenMembers(s, s.ours[m]);
    }
    hide Linked, Owned, Grown, Unread, LosesOnlyOwn, Syncing, Collected, Fulfilled, ExactAt, UnionOfWants, Stepped, Counted;
  }

  lemma UnionStep(t: State, u: State, source: Source, want: set<nat>)
    requires UnionOfWants(t) && Synced(t, u, source, want) && source.sid !in t.wants
    ensures UnionOfWants(u)
  {
    hide Collected, Counted;
    forall a ensures a in u.desired <==> exists m :: m in u.wants && a in u.wants[m] {
      if a in want {
        assert source.sid in u.wants && a in u.wants[source.sid];
      }
      if a in t.desired {
        var m :| m in t.wants && a in t.wants[m];
        assert m in u.wants && a in u.wants[m];
      }
      if m :| m in u.wants && a in u.wants[m] && a !in want {
        assert m in t.wants && a in t.wants[m];
      }
    }
  }

  lemma ChangedStep(s: State, t: State, u: State, done: seq<Source>, source: Source, want: set<nat>)
    requires Progress(s, t, done) && Synced(t, u, source, want) && Grown(s.assets, t.assets) && Grown(t.assets, u.assets)
    ensures Counted(s, u)
    ensures u.missed == s.missed ==> Changed(s.assets, u.assets) <= u.desired
  {
    hide Linked, Owned, Grown, Fulfilled, ExactAt, UnionOfWants, Untouched, StandsFor, Shown;
    ChangedBoth(s.assets, t.assets, u.assets);
  }

  lemma CollectedMine(t: State, u: State, source: Source, want: set<nat>)
    requires Collected(t, u, source.photos, want)
    ensures want <= u.mine <= t.mine + want
  {
    hide StandsFor, Shown, Changed;
  }

  lemma ProgressStep(s: State, t: State, u: State, done: seq<Source>, source: Source, want: set<nat>)
    requires Linked(s) && Progress(s, t, done) && Stepped(s, t, Sids(done)) && Linked(u) && Owned(u)
    requires Stepped(t, u, {source.sid}) && Synced(t, u, source, want) && source.sid !in Sids(done) && source.sid != COMBINED
    ensures Progress(s, u, done + [source])
  {
    hide Linked, Owned, Grown, Unread, LosesOnlyOwn, Syncing, Fulfilled, UnionOfWants, Untouched, Counted, Changed,
      Collected, AfterPlan, Sids, ExactAt;
    SidsStep(done, source);
    assert Grown(s.assets, t.assets) && Grown(t.assets, u.assets);
    UntouchedStep(s, t, u, done, source, want);
    UnionStep(t, u, source, want);
    ChangedStep(s, t, u, done, source, want);
    forall d | d in done + [source] ensures Fulfilled(s, u, d) {
      if d in done {
        SidsHas(done, d);
        FulfilledStays(s, t, u, done, source, want, d);
      } else {
        FulfilledNow(s, t, u, done, source, want);
      }
    }
    forall p | 0 <= p < |done + [source]| ensures ExactAt(s, u, done + [source], p) {
      if p < |done| {
        ExactStays(s, t, u, done, source, want, p);
      } else {
        ExactNow(s, t, u, done, source, want);
      }
    }
    CollectedMine(t, u, source, want);
    hide Stepped;
    assert u.wants.Keys == Sids(done + [source]);
    assert u.ours.Keys == s.ours.Keys + Sids(done + [source]);
  }

  lemma SidsHas(done: seq<Source>, d: Source)
    requires d in done
    ensures d.sid in Sids(done)
  {}

  lemma SteppedTransitive(s: State, t: State, u: State, first: set<string>, second: set<string>)
    requires Stepped(s, t, first) && Stepped(t, u, second)
    ensures Stepped(s, u, first + second)
  {
    hide LosesOnlyOwn, Unread, Syncing;
    GrownTransitive(s.assets, t.assets, u.assets);
    assert Syncing(s.log, u.log) by {
      hide *;
      SyncingTransitive(s.log, t.log, u.log);
    }
    assert LosesOnlyOwn(s.albums, u.albums, u.assets) by {
      hide *;
      LosesTransitive(s, t, u);
    }
    assert Unread(s, u) by {
      hide *;
      UnreadTransitive(s, t, u, first, second);
    }
  }

  lemma SyncingSelf(log: seq<Write>)
    ensures Syncing(log, log)
  {}

  lemma SyncingTransitive(a: seq<Write>, b: seq<Write>, c: seq<Write>)
    requires Syncing(a, b) && Syncing(b, c)
    ensures Syncing(a, c)
  {}

  lemma UnreadTransitive(s: State, t: State, u: State, first: set<string>, second: set<string>)
    requires Unread(s, t) && Unread(t, u) && Stepped(s, t, first)
    ensures Unread(s, u)
  {
    hide Grown, LosesOnlyOwn, Syncing;
    forall i | i in s.albums && i !in s.members ensures i in u.albums && u.albums[i] == s.albums[i] {
      assert i in t.albums && i !in t.members;
    }
  }

  lemma LosesTransitive(s: State, t: State, u: State)
    requires LosesOnlyOwn(s.albums, t.albums, t.assets) && LosesOnlyOwn(t.albums, u.albums, u.assets)
    requires Grown(t.assets, u.assets)
    requires forall i :: i in s.albums ==> i in t.albums && t.albums[i].marker == s.albums[i].marker
    ensures LosesOnlyOwn(s.albums, u.albums, u.assets)
  {
    forall i, a | Lost(s.albums, u.albums, i, a)
      ensures s.albums[i].marker.Some? && a in u.assets && u.assets[a].keys.Some?
    {
      assert Lost(s.albums, t.albums, i, a) || Lost(t.albums, u.albums, i, a);
    }
  }

  // An album is listed once.
  ghost predicate Distinct(scraped: seq<Source>) {
    forall i, j :: 0 <= i < j < |scraped| ==> scraped[i].sid != scraped[j].sid
  }

  lemma DistinctAt(scraped: seq<Source>, p: nat)
    requires Distinct(scraped) && p < |scraped|
    ensures scraped[p].sid !in Sids(scraped[..p])
  {}

  lemma NoSteps(s: State, sids: set<string>)
    ensures Stepped(s, s, sids)
  {}

  lemma SteppedMore(s: State, t: State, sids: set<string>, more: set<string>)
    requires Stepped(s, t, sids) && sids <= more
    ensures Stepped(s, t, more)
  {
    hide Grown, LosesOnlyOwn, Syncing, Unread, Counted;
  }

  lemma SidsWithin(scraped: seq<Source>, n: nat)
    requires n <= |scraped|
    ensures Sids(scraped[..n]) <= Sids(scraped)
  {}

  lemma PhotosWithin(scraped: seq<Source>, d: Source)
    requires d in scraped
    ensures PhotoSet(d.photos) <= AllPhotos(scraped)
    ensures forall k :: k in PhotoSet(d.photos) <==> k in d.photos
  {}

  lemma SteppedCounts(s: State, t: State, sids: set<string>)
    requires Stepped(s, t, sids)
    ensures Counted(s, t)
  {}

  lemma ProgressFacts(s: State, t: State, done: seq<Source>)
    requires Progress(s, t, done)
    ensures Linked(t) && Owned(t)
  {}

  // The known assets of all the listed photos.
  ghost function KnownAll(byKey: map<string, nat>, done: seq<Source>): set<nat> {
    set k | k in AllPhotos(done) && k in byKey :: byKey[k]
  }

  lemma KnownAllStep(byKey: map<string, nat>, done: seq<Source>, source: Source)
    ensures KnownAll(byKey, done + [source]) == KnownAll(byKey, done) + Known(byKey, source.photos)
  {
    assert AllPhotos(done + [source]) == AllPhotos(done) + PhotoSet(source.photos) by {
      forall k | k in AllPhotos(done) ensures k in AllPhotos(done + [source]) {
        var d :| d in done && k in d.photos;
        assert d in done + [source];
      }
      forall k | k in PhotoSet(source.photos) ensures k in AllPhotos(done + [source]) {
        assert source in done + [source];
      }
    }
  }

  lemma KnownAllNone(byKey: map<string, nat>)
    ensures KnownAll(byKey, []) == {}
  {}

  lemma InSyncFrame(s: State, source: Source, desired: set<nat>, wants: map<string, set<nat>>)
    requires InSync(s, source)
    ensures InSync(s.(desired := desired, wants := wants), source)
  {}

  // ---- one album for each marker

  ghost predicate OneEach(s: State) {
    && UniqueMarkers(s.albums)
    && (forall i :: i in s.albums && s.albums[i].marker.Some? ==>
          s.albums[i].marker.value == COMBINED || s.albums[i].marker.value in s.ours)
  }

  lemma OneEachFrame(s: State, t: State)
    requires OneEach(s) && t.ours == s.ours && t.albums.Keys == s.albums.Keys
    requires forall i :: i in s.albums ==> t.albums[i].marker == s.albums[i].marker
    ensures OneEach(t)
  {}

  lemma OneEachFound(s: State, t: State, source: Source, id: nat)
    requires OneEach(s) && Looked(s, t, source) && Found(s, t, source, id)
    requires source.sid !in s.ours ==> t.albums == s.albums[id := Album(source.title, Some(source.sid), {})]
    requires source.sid != COMBINED
    ensures OneEach(t)
  {
    hide Unread, Syncing;
  }

  lemma AppliedAlike(f: State, c: State, t: State, sid: string, id: nat, want: set<nat>, ok: bool)
    requires Imported(f, c) && AppliedTo(c, t, sid, id, want, ok)
    ensures t.missed == c.missed
    ensures OneEach(f) ==> OneEach(t)
  {
    hide Owned, Grown, Syncing, OneEach;
    if OneEach(f) {
      OneEachFrame(f, t);
    }
  }

  lemma OneEachUnique(s: State)
    requires OneEach(s)
    ensures UniqueMarkers(s.albums)
  {}

  // Immich as the run reads it at the start.
  ghost predicate ReadOf(s: State, t: State) {
    && Linked(t)
    && t == s.(albums := t.albums, log := t.log, ours := t.ours, combined := t.combined, members := t.members,
               known := t.known, mine := t.mine, byKey := t.byKey)
    && (forall m :: m in t.ours ==> t.ours[m] in s.albums)
    && (forall i :: i in s.albums && s.albums[i].marker.Some? ==>
          s.albums[i].marker.value == COMBINED || s.albums[i].marker.value in t.ours)
    && t.members.Keys == t.ours.Values + {t.combined}
    && (forall i :: i in t.members ==> i in t.albums && t.members[i] == Visible(t.assets, t.albums[i].members))
    && (forall i :: i in t.members ==> t.members[i] <= t.known)
    && (forall a :: a in t.known ==> exists i :: i in t.members && a in t.members[i])
    && KeysRead(t)
  }

  // `mine` and `byKey` are what the metadata of the known assets says.
  ghost predicate KeysRead(t: State) {
    && t.known <= t.assets.Keys
    && (forall a :: a in t.mine <==> a in t.known && t.assets[a].keys.Some?)
    && (forall k :: k in t.byKey ==> t.byKey[k] in t.mine && HasKey(t.assets[t.byKey[k]], k))
    && (forall a, k :: a in t.mine && HasKey(t.assets[a], k) ==> k in t.byKey)
  }

  // At most the combined album is new.
  ghost predicate OnlyCombinedNew(s: State, t: State) {
    && Syncing(s.log, t.log)
    && (forall i :: i in s.albums ==> i in t.albums && t.albums[i] == s.albums[i])
    && (forall i :: i in t.albums && i !in s.albums ==> t.albums[i].marker == Some(COMBINED) && t.albums[i].members == {})
    && ((exists i :: i in s.albums && s.albums[i].marker == Some(COMBINED)) ==> t.albums == s.albums && t.log == s.log)
  }

  lemma OnlyCombinedFrame(s: State, t: State, u: State)
    requires OnlyCombinedNew(s, t) && u.albums == t.albums && u.log == t.log
    ensures OnlyCombinedNew(s, u)
  {
    hide Syncing;
  }

  // The three parts of reading Immich.
  ghost predicate MarkersRead(s: State, t: State) {
    && (forall m :: m in t.ours ==> m != COMBINED && t.ours[m] in s.albums && s.albums[t.ours[m]].marker == Some(m))
    && (forall i :: i in s.albums && s.albums[i].marker.Some? ==>
          s.albums[i].marker.value == COMBINED || s.albums[i].marker.value in t.ours)
  }

  ghost predicate CombinedFound(t: State) {
    t.combined in t.albums && t.albums[t.combined].marker == Some(COMBINED)
  }

  ghost predicate MembersRead(t: State) {
    && t.members.Keys == t.ours.Values + {t.combined}
    && (forall i :: i in t.members ==> i in t.albums && t.members[i] == Visible(t.assets, t.albums[i].members))
    && (forall i :: i in t.members ==> t.members[i] <= t.known)
    && (forall a :: a in t.known ==> exists i :: i in t.members && a in t.members[i])
  }

  lemma KnownStored(t: State)
    requires MembersRead(t)
    ensures t.known <= t.assets.Keys
  {}

  lemma AlbumsFound(s: State, f: State)
    requires OnlyCombinedNew(s, f) && MarkersRead(s, f) && CombinedFound(f)
    ensures f.combined in f.albums && forall m :: m in f.ours ==> f.ours[m] in f.albums
  {
    hide Syncing;
  }

  lemma ReadWhole(s: State, f: State, m: State, t: State)
    requires f == s.(albums := f.albums, log := f.log, ours := f.ours, combined := f.combined)
    requires m == f.(members := m.members, known := m.known) && t == m.(mine := t.mine, byKey := t.byKey)
    requires OnlyCombinedNew(s, f) && MarkersRead(s, f) && CombinedFound(f) && MembersRead(m) && KeysRead(t)
    ensures ReadOf(s, t)
  {
    hide KeysRead, Syncing;
  }

  lemma ReadOwned(s: State, t: State)
    requires ReadOf(s, t)
    ensures Owned(t)
  {
    forall a | a in t.mine ensures a in t.assets && !t.assets[a].trashed && t.assets[a].keys.Some? {
      var i :| i in t.members && a in t.members[i];
    }
  }

  lemma CombinedSteps(s: State, t: State)
    requires Linked(s) && Owned(s) && s.combined in t.albums
    requires t == s.(albums := t.albums, log := t.log) && Syncing(s.log, t.log)
    requires t.albums == s.albums[s.combined := s.albums[s.combined].(members := t.albums[s.combined].members)]
    requires s.albums[s.combined].members - s.mine <= t.albums[s.combined].members
    ensures Stepped(s, t, {COMBINED})
  {
    hide Syncing;
    GrownSelf(s.assets);
  }

  // ---- what albums lose over the whole run

  // No known asset of these photos.
  ghost predicate NotKnown(r: State, photos: set<string>, a: nat) {
    forall k :: k in photos && k in r.byKey ==> r.byKey[k] != a
  }

  // Albums lost only what they showed and what none of their photos stands for.
  ghost predicate KeepsListed(r: State, t: State, scraped: seq<Source>) {
    forall i, a :: Lost(r.albums, t.albums, i, a) ==>
      a in SeenMembers(r, i) && NotKnown(r, PhotosFor(scraped, r.albums[i].marker), a)
  }

  lemma KeepsSelf(r: State, scraped: seq<Source>)
    ensures KeepsListed(r, r, scraped)
  {}

  lemma PhotosForListed(scraped: seq<Source>, d: Source)
    requires Distinct(scraped) && d in scraped && d.sid != COMBINED
    ensures PhotosFor(scraped, Some(d.sid)) == PhotoSet(d.photos)
  {
    forall s | s in scraped && s.sid == d.sid ensures s == d {
      var i, j :| 0 <= i < |scraped| && 0 <= j < |scraped| && scraped[i] == s && scraped[j] == d;
    }
  }

  lemma KeepsStep(r: State, t: State, u: State, done: seq<Source>, source: Source, scraped: seq<Source>)
    requires Linked(r) && Linked(t) && Progress(r, t, done) && Stepped(r, t, Sids(done)) && Stepped(t, u, {source.sid})
    requires KeepsListed(r, t, scraped) && LosesUnwanted(t, u, source)
    requires Distinct(scraped) && source in scraped && source.sid != COMBINED && source.sid !in Sids(done)
    ensures KeepsListed(r, u, scraped)
  {
    hide Stepped, Progress, Linked, LosesUnwanted, KeepsListed, SeenMembers, NotKnown, PhotosFor, PhotoSet, Distinct, Sids;
    forall i, a | Lost(r.albums, u.albums, i, a)
      ensures a in SeenMembers(r, i) && NotKnown(r, PhotosFor(scraped, r.albums[i].marker), a)
    {
      LostIn(r, t, u, Sids(done), i, a);
      if Lost(t.albums, u.albums, i, a) {
        LostUnwanted(t, u, source, i, a);
        AsRead(r, t, done, source, i);
        PhotosForListed(scraped, source);
        KnownMore(r, t, done, source, a);
      } else {
        LostKept(r, t, scraped, i, a);
      }
    }
    KeepsBy(r, u, scraped);
  }

  lemma KeepsBy(r: State, u: State, scraped: seq<Source>)
    requires forall i, a :: Lost(r.albums, u.albums, i, a) ==>
               a in SeenMembers(r, i) && i in r.albums && NotKnown(r, PhotosFor(scraped, r.albums[i].marker), a)
    ensures KeepsListed(r, u, scraped)
  {}

  lemma LostKept(r: State, t: State, scraped: seq<Source>, i: nat, a: nat)
    requires KeepsListed(r, t, scraped) && Lost(r.albums, t.albums, i, a)
    ensures a in SeenMembers(r, i) && i in r.albums && NotKnown(r, PhotosFor(scraped, r.albums[i].marker), a)
  {}

  lemma LostIn(r: State, t: State, u: State, sids: set<string>, i: nat, a: nat)
    requires Stepped(r, t, sids) && Lost(r.albums, u.albums, i, a)
    ensures i in r.albums && i in t.albums && t.albums[i].marker == r.albums[i].marker
    ensures Lost(r.albums, t.albums, i, a) || Lost(t.albums, u.albums, i, a)
  {
    hide Grown, LosesOnlyOwn, Syncing, Unread, Counted;
  }

  lemma LostUnwanted(t: State, u: State, source: Source, i: nat, a: nat)
    requires LosesUnwanted(t, u, source) && Lost(t.albums, u.albums, i, a)
    ensures source.sid in t.ours && i == t.ours[source.sid] && a in SeenMembers(t, i)
    ensures forall k :: k in source.photos && k in t.byKey ==> t.byKey[k] != a
  {}

  // An album the run has not come to is as it was read.
  lemma AsRead(r: State, t: State, done: seq<Source>, source: Source, i: nat)
    requires Linked(r) && Linked(t) && Progress(r, t, done) && source.sid !in Sids(done)
    requires source.sid in t.ours && i == t.ours[source.sid] && i in r.albums
    ensures SeenMembers(t, i) == SeenMembers(r, i) && r.albums[i].marker == Some(source.sid)
  {
    hide Owned, Fulfilled, ExactAt, UnionOfWants, Counted, SeenMembers;
    assert source.sid in r.ours && r.ours[source.sid] == i;
  }

  lemma KnownMore(r: State, t: State, done: seq<Source>, source: Source, a: nat)
    requires Progress(r, t, done)
    requires forall k :: k in source.photos && k in t.byKey ==> t.byKey[k] != a
    ensures NotKnown(r, PhotoSet(source.photos), a)
  {
    hide Owned, Linked, Fulfilled, ExactAt, UnionOfWants, Counted, Untouched, Sids;
  }

  // The combined album keeps what any listed album wants.
  lemma KeepsCombined(r: State, l: State, c: State, scraped: seq<Source>)
    requires Linked(r) && Linked(l) && Progress(r, l, scraped) && Stepped(r, l, Sids(scraped)) && COMBINED !in Sids(scraped)
    requires KeepsListed(r, l, scraped)
    requires forall i, a :: Lost(l.albums, c.albums, i, a) ==> i == l.combined && a in SeenMembers(l, i) && a !in l.desired
    requires forall i :: i in l.albums ==> i in c.albums
    ensures KeepsListed(r, c, scraped)
  {
    assert l.combined == r.combined && SeenMembers(l, r.combined) == SeenMembers(r, r.combined);
    KnownDesired(r, l, scraped);
    hide Owned, Grown, LosesOnlyOwn, Syncing, Fulfilled, ExactAt, UnionOfWants, Counted, Sids, Progress, AllPhotos;
    forall i, a | Lost(r.albums, c.albums, i, a)
      ensures a in SeenMembers(r, i) && NotKnown(r, PhotosFor(scraped, r.albums[i].marker), a)
    {
      if a in l.albums[i].members {
        assert Lost(l.albums, c.albums, i, a);
        assert PhotosFor(scraped, r.albums[i].marker) == AllPhotos(scraped);
      } else {
        assert Lost(r.albums, l.albums, i, a);
      }
    }
  }

  lemma KnownDesired(r: State, l: State, scraped: seq<Source>)
    requires Progress(r, l, scraped)
    ensures forall k :: k in AllPhotos(scraped) && k in r.byKey ==> r.byKey[k] in l.desired
  {
    hide Owned, Linked, Untouched, Counted, Sids, StandsFor, Shown;
    forall k | k in AllPhotos(scraped) && k in r.byKey ensures r.byKey[k] in l.desired {
      var d :| d in scraped && k in d.photos;
      assert Fulfilled(r, l, d);
      assert r.byKey[k] in l.wants[d.sid];
    }
  }
}
