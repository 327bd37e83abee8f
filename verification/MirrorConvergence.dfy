// What a completed run achieves: the exact loss of listed albums, when the
// account mirrors the list, and that the next run then has nothing to do.

module MirrorConvergence {
  import opened MirrorSafety
  import opened MirrorSteps
  import opened MirrorStore
  import opened Options

  // ---- convergence

  // An own visible member of a listed album goes iff none of the album's photos
  // has its bytes.
  ghost predicate ExactLoss(google: map<string, Content>, s: State, t: State, scraped: seq<Source>) {
    forall d: Source, i: nat, a: nat :: d in scraped && OwnMember(s, d.sid, i, a) ==> StaysIffListed(google, s, t, d, i, a)
  }

  ghost predicate StaysIffListed(google: map<string, Content>, s: State, t: State, d: Source, i: nat, a: nat) {
    && a in s.assets && i in t.albums
    && (a in t.albums[i].members <==> Pictured(google, s.assets[a].content, PhotoSet(d.photos)))
  }

  ghost predicate OwnMember(s: State, sid: string, i: nat, a: nat) {
    i in s.albums && s.albums[i].marker == Some(sid) && a in Visible(s.assets, s.albums[i].members) && s.assets[a].keys.Some?
  }

  // When nothing was missed, an album's wanted assets are those of its bytes.
  lemma WantPictured(google: map<string, Content>, r: State, l: State, scraped: seq<Source>, d: Source, a: nat)
    requires Sound(google, l.assets) && Progress(r, l, scraped) && l.missed == r.missed && d in scraped && a in l.assets
    ensures d.sid in l.wants
    ensures a in l.wants[d.sid] <==> Pictured(google, l.assets[a].content, PhotoSet(d.photos))
  {
    hide Linked, Owned, Untouched, UnionOfWants, Counted, StandsFor, Shown;
    assert Fulfilled(r, l, d);
    if a in l.wants[d.sid] {
      StandsPictured(google, l.assets, a, PhotoSet(d.photos));
    }
    if k :| k in PhotoSet(d.photos) && k in google && google[k] == l.assets[a].content {
      var b := ShownAsset(l.assets, l.wants[d.sid], k);
      SoundKey(google, l.assets, b, k);
      SoundContent(google, l.assets, a, b);
    }
  }

  lemma ShownAsset(assets: Assets, members: set<nat>, k: string) returns (a: nat)
    requires Shown(assets, members, k)
    ensures a in members && a in assets && HasKey(assets[a], k)
  {
    a :| a in members && a in assets && HasKey(assets[a], k);
  }

  lemma StandsPictured(google: map<string, Content>, assets: Assets, a: nat, photos: set<string>)
    requires Sound(google, assets) && StandsFor(assets, a, photos)
    ensures a in assets && Pictured(google, assets[a].content, photos)
  {
    var k :| k in photos && HasKey(assets[a], k);
    assert k in google && google[k] == assets[a].content;
  }

  lemma SoundKey(google: map<string, Content>, assets: Assets, a: nat, k: string)
    requires Sound(google, assets) && a in assets && HasKey(assets[a], k)
    ensures k in google && google[k] == assets[a].content
  {}

  lemma SoundContent(google: map<string, Content>, assets: Assets, a: nat, b: nat)
    requires Sound(google, assets) && a in assets && b in assets && assets[a].content == assets[b].content
    ensures a == b
  {}

  // The desired assets are those of all listed bytes.
  lemma DesiredPictured(google: map<string, Content>, r: State, l: State, scraped: seq<Source>, a: nat)
    requires Sound(google, l.assets) && Progress(r, l, scraped) && l.missed == r.missed && a in l.assets
    ensures a in l.desired <==> Pictured(google, l.assets[a].content, AllPhotos(scraped))
  {
    hide Linked, Owned, Untouched, Counted, Sound, Fulfilled, ExactAt, PhotoSet;
    if a in l.desired {
      var m :| m in l.wants && a in l.wants[m];
      var d :| d in scraped && d.sid == m;
      WantPictured(google, r, l, scraped, d, a);
      var k :| k in PhotoSet(d.photos) && k in google && google[k] == l.assets[a].content;
      PhotosWithin(scraped, d);
      assert k in AllPhotos(scraped);
    }
    if k :| k in AllPhotos(scraped) && k in google && google[k] == l.assets[a].content {
      var d :| d in scraped && k in d.photos;
      PhotosWithin(scraped, d);
      assert k in PhotoSet(d.photos);
      WantPictured(google, r, l, scraped, d, a);
      assert a in l.wants[d.sid];
    }
  }

  lemma PhotoSource(scraped: seq<Source>, k: string) returns (d: Source)
    requires k in AllPhotos(scraped)
    ensures d in scraped && k in PhotoSet(d.photos)
  {
    d :| d in scraped && k in d.photos;
  }

  // Loss is exact in every run whose album syncs finish with nothing missed,
  // whether or not all albums could be read.
  lemma LossIsExact(google: map<string, Content>, s: State, r: State, l: State, t: State, scraped: seq<Source>)
    requires Sound(google, l.assets) && UniqueMarkers(s.albums) && OnlyCombinedNew(s, r) && ReadOf(s, r)
    requires Progress(r, l, scraped) && Grown(r.assets, l.assets) && l.missed == r.missed && COMBINED !in Sids(scraped)
    requires forall i :: i in l.albums && l.albums[i].marker.Some? && l.albums[i].marker.value in Sids(scraped) ==>
               i in t.albums && t.albums[i].members == l.albums[i].members
    ensures ExactLoss(google, s, t, scraped)
  {
    hide OwnMember, OnlyCombinedNew, ReadOf, Progress, Sound, UniqueMarkers, Grown, Pictured, Sids, PhotoSet, Visible;
    forall d, i: nat, a: nat | d in scraped && OwnMember(s, d.sid, i, a) ensures StaysIffListed(google, s, t, d, i, a) {
      LossAt(google, s, r, l, scraped, d, i, a);
    }
  }

  lemma LossAt(google: map<string, Content>, s: State, r: State, l: State, scraped: seq<Source>, d: Source, i: nat, a: nat)
    requires Sound(google, l.assets) && UniqueMarkers(s.albums) && OnlyCombinedNew(s, r) && ReadOf(s, r)
    requires Progress(r, l, scraped) && Grown(r.assets, l.assets) && l.missed == r.missed && COMBINED !in Sids(scraped)
    requires d in scraped && OwnMember(s, d.sid, i, a)
    ensures a in s.assets && i in l.albums && l.albums[i].marker == Some(d.sid) && d.sid in Sids(scraped)
    ensures a in l.albums[i].members <==> Pictured(google, s.assets[a].content, PhotoSet(d.photos))
  {
    hide *;
    SidsHas(scraped, d);
    OwnMemberRead(s, r, d, i, a);
    FulfilledOf(r, l, scraped, d);
    GrownContent(r.assets, l.assets, a);
    WantPictured(google, r, l, scraped, d, a);
    MemberIffWanted(r, l, d, i, a);
  }

  lemma GrownContent(before: Assets, after: Assets, a: nat)
    requires Grown(before, after) && a in before
    ensures a in after && after[a].content == before[a].content
  {}

  lemma FulfilledOf(r: State, l: State, scraped: seq<Source>, d: Source)
    requires Progress(r, l, scraped) && d in scraped
    ensures Fulfilled(r, l, d) && Linked(l)
    ensures d.sid in r.ours ==> d.sid in l.ours && r.ours[d.sid] == l.ours[d.sid]
  {
    hide Linked, Fulfilled, ExactAt, Owned, Untouched, UnionOfWants, Counted;
  }

  // The one album with the marker, read with this member in it.
  lemma OwnMemberRead(s: State, r: State, d: Source, i: nat, a: nat)
    requires UniqueMarkers(s.albums) && OnlyCombinedNew(s, r) && ReadOf(s, r) && OwnMember(s, d.sid, i, a) && d.sid != COMBINED
    ensures d.sid in r.ours && r.ours[d.sid] == i && i in r.albums && r.albums[i] == s.albums[i] && r.assets == s.assets
    ensures a in SeenMembers(r, i) && a in RawMembers(r, i) && a in r.mine && a in r.assets
  {
    hide Syncing;
    assert i == r.ours[d.sid] && i in r.members;
    assert a in r.members[i] && a in r.known;
  }

  lemma MemberIffWanted(r: State, l: State, d: Source, i: nat, a: nat)
    requires Fulfilled(r, l, d) && Linked(l) && l.ours[d.sid] == i && a in SeenMembers(r, i) && a in r.mine
    ensures i in l.albums && l.albums[i].marker == Some(d.sid)
    ensures a in l.albums[i].members <==> a in l.wants[d.sid]
  {
    hide Wanted;
  }

  // As read, what is out of sight in an album of ours is in the trash.
  ghost predicate HiddenTrashed(r: State) {
    forall i, x :: i in r.members && x in Hidden(r, i) ==> x in r.assets && r.assets[x].trashed
  }

  // As read, what someone else put into an album of ours.
  ghost function Strangers(r: State, i: nat): set<nat> {
    SeenMembers(r, i) - r.mine
  }

  lemma ReadHidden(s: State, r: State)
    requires ReadOf(s, r) && OnlyCombinedNew(s, r) && r.assets == s.assets && MembersStored(s.assets, s.albums)
    ensures HiddenTrashed(r)
  {
    hide Linked, Syncing, KeysRead;
    assert MembersStored(r.assets, r.albums);
    forall i, x | i in r.members && x in Hidden(r, i) ensures x in r.assets && r.assets[x].trashed {
      assert r.albums[i].marker.Some? by { ReadMarked(s, r, i); }
    }
  }

  lemma StrangerRead(s: State, r: State, i: nat, a: nat)
    requires ReadOf(s, r) && OnlyCombinedNew(s, r) && r.assets == s.assets && a in Strangers(r, i)
    ensures i in r.members && i in r.albums && a in r.albums[i].members && a in r.known && a in r.assets
    ensures !r.assets[a].trashed && r.assets[a].keys == None
    ensures i in s.albums && s.albums[i] == r.albums[i] && Stranger(s.assets, s.albums, i, a)
  {
    ReadMarked(s, r, i);
    hide Linked, Syncing;
  }

  lemma ReadMarked(s: State, r: State, i: nat)
    requires ReadOf(s, r) && i in r.members
    ensures i in r.albums && r.albums[i].marker.Some?
    ensures i == r.combined || exists m :: m in r.ours && r.ours[m] == i
  {
    hide KeysRead;
    assert i in r.ours.Values + {r.combined};
  }

  // Every album of ours left is the combined one or a listed one.
  lemma ManagedAre(s: State, r: State, l: State, c: State, d: State, scraped: seq<Source>, i: nat)
    requires UniqueMarkers(s.albums) && UniqueMarkers(d.albums)
    requires OnlyCombinedNew(s, r) && ReadOf(s, r) && Progress(r, l, scraped) && Stepped(r, l, Sids(scraped))
    requires OnlyCombinedTouched(l, c) && Dropped(c, d, Sids(scraped))
    requires forall m :: m in d.ours && m !in Sids(scraped) ==> d.ours[m] !in d.albums
    requires i in d.albums && d.albums[i].marker.Some?
    ensures d.combined in d.albums && d.albums[d.combined].marker == Some(COMBINED) && i in c.albums
    ensures i == d.combined ||
            (d.albums[i].marker.value in Sids(scraped) && d.albums[i].marker.value in l.ours && i == l.ours[d.albums[i].marker.value])
  {
    hide OnlyCombinedNew, ReadOf, Progress, Stepped, OnlyCombinedTouched, Sids;
    var m := d.albums[i].marker.value;
    CombinedStays(r, l, c, d, scraped);
    if m in Sids(scraped) {
      ListedStays(r, l, c, d, scraped, m);
    } else if m != COMBINED {
      UnlistedRead(s, r, l, c, d, scraped, i);
      assert false;
    }
  }

  // An album of ours that is not listed was read under its marker.
  lemma UnlistedRead(s: State, r: State, l: State, c: State, d: State, scraped: seq<Source>, i: nat)
    requires UniqueMarkers(s.albums) && OnlyCombinedNew(s, r) && ReadOf(s, r) && Progress(r, l, scraped)
    requires Stepped(r, l, Sids(scraped)) && OnlyCombinedTouched(l, c) && Dropped(c, d, Sids(scraped))
    requires i in d.albums && d.albums[i].marker.Some?
    requires d.albums[i].marker.value != COMBINED && d.albums[i].marker.value !in Sids(scraped)
    ensures d.albums[i].marker.value in d.ours && d.ours[d.albums[i].marker.value] == i
  {
    hide Grown, Syncing, LosesOnlyOwn, Fulfilled, ExactAt, Untouched, UnionOfWants, Owned, KeysRead, Unread, Counted, Sids;
    assert i in c.albums && i in l.albums && l.albums[i].marker == d.albums[i].marker;
    assert i in s.albums;
  }

  lemma CombinedStays(r: State, l: State, c: State, d: State, scraped: seq<Source>)
    requires Progress(r, l, scraped) && OnlyCombinedTouched(l, c) && Dropped(c, d, Sids(scraped))
    ensures d.combined in d.albums && d.albums[d.combined] == c.albums[c.combined] && d.combined == r.combined
    ensures d.albums[d.combined].marker == Some(COMBINED)
  {
    hide Fulfilled, ExactAt, Untouched, UnionOfWants, Owned, Sids, Counted;
    assert Linked(l);
  }

  lemma ListedStays(r: State, l: State, c: State, d: State, scraped: seq<Source>, m: string)
    requires Progress(r, l, scraped) && OnlyCombinedTouched(l, c) && Dropped(c, d, Sids(scraped)) && m in Sids(scraped)
    ensures m in l.ours && l.ours[m] in d.albums && l.ours[m] in l.albums && d.albums[l.ours[m]] == l.albums[l.ours[m]]
    ensures d.albums[l.ours[m]].marker == Some(m) && m != COMBINED
  {
    hide Fulfilled, ExactAt, Untouched, UnionOfWants, Owned, Sids, Counted;
    assert Linked(l) && m in l.ours;
  }

  // The runs to be shown convergent: every phase went through and nothing was missed.
  ghost predicate Completed(google: map<string, Content>, s: State, r: State, l: State, c: State, d: State, e: State,
                            orphans: set<nat>, scraped: seq<Source>) {
    && UniqueMarkers(s.albums) && UniqueMarkers(d.albums) && HiddenTrashed(r)
    && OnlyCombinedNew(s, r) && ReadOf(s, r) && r.assets == s.assets
    && Progress(r, l, scraped) && Stepped(r, l, Sids(scraped)) && l.missed == r.missed
    && OnlyCombinedTouched(l, c) && c.albums[c.combined].members == Hidden(r, r.combined) + Strangers(r, r.combined) + l.desired
    && Dropped(c, d, Sids(scraped)) && (forall m :: m in d.ours && m !in Sids(scraped) ==> d.ours[m] !in d.albums)
    && (forall a :: a in orphans <==> Orphan(d, a))
    && Sound(google, d.assets) && e.albums == d.albums
    && e.assets == map a | a in d.assets :: if a in orphans then d.assets[a].(trashed := true) else d.assets[a]
  }

  lemma DroppedFrame(c: State, d: State, sids: set<string>)
    requires Dropped(c, d, sids)
    ensures d == c.(albums := d.albums, log := d.log)
  {}

  lemma CompletedAssets(google: map<string, Content>, s: State, r: State, l: State, c: State, d: State, e: State,
                        orphans: set<nat>, scraped: seq<Source>)
    requires Completed(google, s, r, l, c, d, e, orphans, scraped)
    ensures d.assets == l.assets && d.desired == l.desired && d.mine == l.mine && d.known == r.known
    ensures Progress(r, l, scraped) && l.missed == r.missed
    ensures Grown(r.assets, l.assets) && Sound(google, l.assets)
    ensures forall a :: a in l.assets <==> a in e.assets
    ensures forall a :: a in l.assets ==> e.assets[a].content == l.assets[a].content && e.assets[a].keys == l.assets[a].keys
    ensures forall a :: a in l.assets ==> (e.assets[a].trashed <==> l.assets[a].trashed || a in orphans)
    ensures forall a :: a in orphans ==> a !in l.desired
  {
    hide UniqueMarkers, HiddenTrashed, OnlyCombinedNew, ReadOf, Sound, Progress, Stepped, Dropped, OnlyCombinedTouched, Grown, Orphan;
    DroppedFrame(c, d, Sids(scraped));
    TouchedFrame(l, c);
    SteppedGrows(r, l, Sids(scraped));
    ProgressFrame(r, l, scraped);
    forall a | a in orphans ensures a !in l.desired {
      OrphanUndesired(d, a);
    }
  }

  lemma SteppedGrows(r: State, l: State, sids: set<string>)
    requires Stepped(r, l, sids)
    ensures Grown(r.assets, l.assets)
  {}

  lemma TouchedFrame(l: State, c: State)
    requires OnlyCombinedTouched(l, c)
    ensures c.assets == l.assets && c.desired == l.desired && c.mine == l.mine && c.known == l.known && c.combined == l.combined
    ensures c.missed == l.missed && c.errors == l.errors && c.deferred == l.deferred
  {}

  lemma ProgressFrame(r: State, l: State, scraped: seq<Source>)
    requires Progress(r, l, scraped)
    ensures l.known == r.known && l.combined == r.combined && Linked(l) && Owned(l) && l.desired <= l.mine
    ensures UnionOfWants(l) && l.wants.Keys == Sids(scraped) && l.mine == r.mine + l.desired
    ensures l.missed == r.missed ==> Changed(r.assets, l.assets) <= l.desired
  {
    hide Linked, Owned, UnionOfWants, Untouched, Fulfilled, ExactAt, Counted;
  }

  lemma OrphanUndesired(d: State, a: nat)
    requires Orphan(d, a)
    ensures a !in d.desired
  {}

  lemma DesiredOwn(google: map<string, Content>, s: State, r: State, l: State, c: State, d: State, e: State,
                   orphans: set<nat>, scraped: seq<Source>, a: nat)
    requires Completed(google, s, r, l, c, d, e, orphans, scraped) && a in l.desired
    ensures a in l.assets && a in e.assets && !e.assets[a].trashed && e.assets[a].keys.Some? && e.assets[a] == l.assets[a]
  {
    CompletedAssets(google, s, r, l, c, d, e, orphans, scraped);
    hide UniqueMarkers, HiddenTrashed, OnlyCombinedNew, ReadOf, Sound, Progress, Stepped, Dropped, OnlyCombinedTouched, Grown, Orphan, Linked;
    ProgressFrame(r, l, scraped);
  }

  // A member that was out of sight shows in the end iff its bytes are listed anywhere.
  lemma HiddenShows(google: map<string, Content>, s: State, r: State, l: State, c: State, d: State, e: State,
                    orphans: set<nat>, scraped: seq<Source>, i: nat, x: nat)
    requires Completed(google, s, r, l, c, d, e, orphans, scraped) && i in r.members && x in Hidden(r, i)
    ensures x in r.assets && r.assets[x].trashed && x in l.assets && x in e.assets
    ensures l.assets[x].content == r.assets[x].content == e.assets[x].content
    ensures !e.assets[x].trashed <==> x in l.desired
    ensures x in l.desired <==> Pictured(google, r.assets[x].content, AllPhotos(scraped))
  {
    hide UniqueMarkers, OnlyCombinedNew, ReadOf, Sound, Progress, Stepped, Dropped, OnlyCombinedTouched, Grown, Orphan, Linked, Pictured,
      Hidden;
    CompletedAssets(google, s, r, l, c, d, e, orphans, scraped);
    assert x in r.assets && r.assets[x].trashed;
    GrownContent(r.assets, l.assets, x);
    DesiredPictured(google, r, l, scraped, x);
    hide Completed, HiddenTrashed;
    if x in l.desired {
      DesiredOwn(google, s, r, l, c, d, e, orphans, scraped, x);
    } else {
      ProgressFrame(r, l, scraped);
      assert x !in Changed(r.assets, l.assets) && l.assets[x] == r.assets[x];
    }
  }

  // A listed album in the end: what it wants, and what was out of sight.
  lemma ListedEnds(google: map<string, Content>, s: State, r: State, l: State, c: State, d: State, e: State,
                   orphans: set<nat>, scraped: seq<Source>, source: Source)
    requires Completed(google, s, r, l, c, d, e, orphans, scraped) && source in scraped
    ensures source.sid in l.ours && source.sid in l.wants && l.ours[source.sid] in e.albums && source.sid != COMBINED
    ensures var id, want := l.ours[source.sid], l.wants[source.sid];
            && e.albums[id].marker == Some(source.sid) && e.albums[id].name == source.title
            && Hidden(r, id) + want <= e.albums[id].members <= Hidden(r, id) + want + Strangers(r, id)
            && want <= l.desired && Wanted(r, l, source, want)
            && (Hidden(r, id) != {} || Strangers(r, id) != {} ==> id in r.members)
  {
    hide UniqueMarkers, OnlyCombinedNew, ReadOf, Sound, Progress, Stepped, Dropped, OnlyCombinedTouched, Grown, Orphan, Linked, Wanted,
      Owned, Sids, RawMembers, SeenMembers;
    SidsHas(scraped, source);
    ListedStays(r, l, c, d, scraped, source.sid);
    FulfilledOf(r, l, scraped, source);
    ProgressFrame(r, l, scraped);
    var id, want := l.ours[source.sid], l.wants[source.sid];
    assert want <= l.desired;
    LeftoverIs(r, id);
    if id !in r.members {
      NotReadEmpty(s, r, l, scraped, source);
    }
  }

  lemma LeftoverIs(r: State, id: nat)
    ensures Leftover(r, id) == Hidden(r, id) + Strangers(r, id) * RawMembers(r, id)
    ensures id !in r.members ==> Strangers(r, id) == {}
  {}

  // A listed album in the end, exactly.
  lemma ListedExact(google: map<string, Content>, s: State, r: State, l: State, c: State, d: State, e: State,
                    orphans: set<nat>, scraped: seq<Source>, p: nat)
    requires Completed(google, s, r, l, c, d, e, orphans, scraped) && p < |scraped|
    ensures scraped[p].sid in l.ours && scraped[p].sid in l.wants && l.ours[scraped[p].sid] in e.albums
    ensures var id, want := l.ours[scraped[p].sid], l.wants[scraped[p].sid];
            e.albums[id].members == Hidden(r, id) + want + (Strangers(r, id) - WantedBy(l.wants, scraped[..p + 1]))
  {
    hide UniqueMarkers, OnlyCombinedNew, ReadOf, Sound, Progress, Stepped, Dropped, OnlyCombinedTouched, Grown, Orphan, Linked, Wanted,
      Owned, Sids, RawMembers, SeenMembers, Hidden, Strangers, AfterPlan, WantedBy;
    SidsHas(scraped, scraped[p]);
    ListedStays(r, l, c, d, scraped, scraped[p].sid);
    ExactHas(r, l, scraped, p);
    var id, want := l.ours[scraped[p].sid], l.wants[scraped[p].sid];
    SeenWithin(s, r, id);
    WantIsWanted(l.wants, scraped, p);
    PlanLeaves(r, id, WantedBy(l.wants, scraped[..p + 1]), want);
  }

  lemma SeenWithin(s: State, r: State, id: nat)
    requires ReadOf(s, r)
    ensures SeenMembers(r, id) <= RawMembers(r, id)
  {
    hide KeysRead;
  }

  lemma WantIsWanted(wants: map<string, set<nat>>, scraped: seq<Source>, p: nat)
    requires p < |scraped| && scraped[p].sid in wants
    ensures wants[scraped[p].sid] <= WantedBy(wants, scraped[..p + 1])
  {
    assert scraped[p] == scraped[..p + 1][p];
    assert scraped[p] in scraped[..p + 1];
  }

  lemma PlanLeaves(r: State, id: nat, wanted: set<nat>, want: set<nat>)
    requires want <= wanted && SeenMembers(r, id) <= RawMembers(r, id)
    ensures AfterPlan(RawMembers(r, id), SeenMembers(r, id), r.mine + wanted, want) ==
            Hidden(r, id) + want + (Strangers(r, id) - wanted)
  {}

  // A listed album the run did not read is one it made.
  lemma NotReadEmpty(s: State, r: State, l: State, scraped: seq<Source>, source: Source)
    requires ReadOf(s, r) && Progress(r, l, scraped) && Stepped(r, l, Sids(scraped)) && source in scraped
    requires source.sid in l.ours && l.ours[source.sid] !in r.members
    ensures RawMembers(r, l.ours[source.sid]) == {}
  {
    hide Owned, Fulfilled, ExactAt, UnionOfWants, Counted, Grown, Syncing, LosesOnlyOwn, KeysRead, Untouched;
    assert Linked(l);
  }

  lemma ManagedEnds(google: map<string, Content>, s: State, r: State, l: State, c: State, d: State, e: State,
                    orphans: set<nat>, scraped: seq<Source>, i: nat)
    requires Completed(google, s, r, l, c, d, e, orphans, scraped)
    requires i in e.albums && e.albums[i].marker.Some?
    ensures e.albums[i].marker.value == COMBINED || e.albums[i].marker.value in Sids(scraped)
    ensures e.albums[i].members <= Hidden(r, i) + Strangers(r, i) + l.desired
    ensures Hidden(r, i) != {} || Strangers(r, i) != {} ==> i in r.members
    ensures e.albums[i].marker == Some(COMBINED) ==>
              i == r.combined && e.albums[i].members == Hidden(r, i) + Strangers(r, i) + l.desired
  {
    ManagedAre(s, r, l, c, d, scraped, i);
    if i == d.combined {
      CombinedStays(r, l, c, d, scraped);
      assert r.combined in r.members by {
        hide Progress, Stepped, UniqueMarkers, Dropped, HiddenTrashed, Sound, KeysRead;
      }
    } else {
      var m := d.albums[i].marker.value;
      var source :| source in scraped && source.sid == m;
      ListedEnds(google, s, r, l, c, d, e, orphans, scraped, source);
    }
  }

  lemma NothingLeft(google: map<string, Content>, s: State, r: State, l: State, c: State, d: State, e: State,
                    orphans: set<nat>, scraped: seq<Source>, a: nat)
    requires Completed(google, s, r, l, c, d, e, orphans, scraped) && Unalbumed(e.assets, e.albums, a)
    ensures e.assets[a].keys == None
  {
    hide UniqueMarkers, OnlyCombinedNew, Sound, Progress, Stepped, Dropped, Grown, OnlyCombinedTouched, Orphan, Hidden, Linked, Owned,
      UnionOfWants, Strangers;
    CompletedAssets(google, s, r, l, c, d, e, orphans, scraped);
    CombinedStays(r, l, c, d, scraped);
    ProgressFrame(r, l, scraped);
    assert a !in l.desired;
    if e.assets[a].keys.Some? {
      if a in r.known {
        assert r.assets[a].keys.Some? by {
          assert a !in Changed(r.assets, l.assets);
        }
        assert a in r.mine;
      }
      LeftIsOrphan(d, a);
    }
  }

  lemma LeftIsOrphan(d: State, a: nat)
    requires Unalbumed(d.assets, d.albums, a) && a !in d.desired && (a in d.known ==> a in d.mine) && d.assets[a].keys.Some?
    ensures Orphan(d, a)
  {}

  lemma SoundAfterTrash(google: map<string, Content>, s: State, r: State, l: State, c: State, d: State, e: State,
                        orphans: set<nat>, scraped: seq<Source>)
    requires Completed(google, s, r, l, c, d, e, orphans, scraped)
    ensures Sound(google, e.assets) && UniqueMarkers(e.albums)
  {
    hide OnlyCombinedNew, ReadOf, Progress, Stepped, OnlyCombinedTouched, Dropped, Orphan, HiddenTrashed;
    assert forall x :: x in e.assets ==> e.assets[x].content == d.assets[x].content && e.assets[x].keys == d.assets[x].keys;
  }

  // A stranger that is left in an album shows there.
  lemma StrangerStays(google: map<string, Content>, s: State, r: State, l: State, c: State, d: State, e: State,
                      orphans: set<nat>, scraped: seq<Source>, i: nat, a: nat)
    requires Completed(google, s, r, l, c, d, e, orphans, scraped) && a in Strangers(r, i)
    requires i in e.albums && a in e.albums[i].members
    ensures a in r.assets && a in l.assets && a in e.assets && !e.assets[a].trashed
    ensures l.assets[a].content == r.assets[a].content == e.assets[a].content
    ensures a !in l.desired ==> e.assets[a] == r.assets[a]
  {
    hide UniqueMarkers, OnlyCombinedNew, ReadOf, Sound, Progress, Stepped, Dropped, OnlyCombinedTouched, Grown, Orphan, Linked, Hidden,
      Unalbumed;
    StrangerRead(s, r, i, a);
    CompletedAssets(google, s, r, l, c, d, e, orphans, scraped);
    ProgressFrame(r, l, scraped);
    GrownContent(r.assets, l.assets, a);
    if a in l.desired {
      DesiredOwn(google, s, r, l, c, d, e, orphans, scraped, a);
    } else {
      assert a !in Changed(r.assets, l.assets) && l.assets[a] == r.assets[a];
      NotOrphan(d, i, a);
    }
  }

  lemma NotOrphan(d: State, i: nat, a: nat)
    requires a !in d.mine && a in d.known
    ensures !Orphan(d, a)
  {}

  // The strangers in the end are some of those before the run, listed nowhere.
  lemma StrangerEnds(google: map<string, Content>, s: State, r: State, l: State, c: State, d: State, e: State,
                     orphans: set<nat>, scraped: seq<Source>, i: nat, a: nat)
    requires Completed(google, s, r, l, c, d, e, orphans, scraped) && Stranger(e.assets, e.albums, i, a)
    ensures StrangerWas(google, s, e, scraped, i, a)
  {
    hide Completed, Hidden, Strangers, Pictured, Sound, Grown;
    ManagedEnds(google, s, r, l, c, d, e, orphans, scraped, i);
    if a in l.desired {
      DesiredOwn(google, s, r, l, c, d, e, orphans, scraped, a);
    }
    if a in Hidden(r, i) {
      HiddenShows(google, s, r, l, c, d, e, orphans, scraped, i, a);
    }
    assert a in Strangers(r, i);
    StrangerStays(google, s, r, l, c, d, e, orphans, scraped, i, a);
    CompletedReads(google, s, r, l, c, d, e, orphans, scraped);
    StrangerRead(s, r, i, a);
    CompletedAssets(google, s, r, l, c, d, e, orphans, scraped);
    DesiredPictured(google, r, l, scraped, a);
  }

  lemma CompletedReads(google: map<string, Content>, s: State, r: State, l: State, c: State, d: State, e: State,
                       orphans: set<nat>, scraped: seq<Source>)
    requires Completed(google, s, r, l, c, d, e, orphans, scraped)
    ensures ReadOf(s, r) && OnlyCombinedNew(s, r) && r.assets == s.assets && UniqueMarkers(s.albums)
    ensures Progress(r, l, scraped) && Stepped(r, l, Sids(scraped))
  {
    hide UniqueMarkers, OnlyCombinedNew, ReadOf, Sound, Progress, Stepped, Dropped, OnlyCombinedTouched, Grown, Orphan, HiddenTrashed;
  }

  lemma StoredAfterTrash(google: map<string, Content>, s: State, r: State, l: State, c: State, d: State, e: State,
                         orphans: set<nat>, scraped: seq<Source>)
    requires Completed(google, s, r, l, c, d, e, orphans, scraped)
    ensures MembersStored(e.assets, e.albums)
  {
    hide Completed, Hidden, Strangers;
    forall i, a | i in e.albums && e.albums[i].marker.Some? && a in e.albums[i].members ensures a in e.assets {
      ManagedEnds(google, s, r, l, c, d, e, orphans, scraped, i);
      if a in Hidden(r, i) {
        HiddenShows(google, s, r, l, c, d, e, orphans, scraped, i, a);
      } else if a in Strangers(r, i) {
        StrangerStays(google, s, r, l, c, d, e, orphans, scraped, i, a);
      } else {
        DesiredOwn(google, s, r, l, c, d, e, orphans, scraped, a);
      }
    }
  }

  // What a listed album shows in the end: its photos, and nothing else iff
  // whatever came back in it is wanted there and its strangers are gone.
  lemma ListedMirrors(google: map<string, Content>, s: State, r: State, l: State, c: State, d: State, e: State,
                      orphans: set<nat>, scraped: seq<Source>, p: nat)
    requires Completed(google, s, r, l, c, d, e, orphans, scraped) && p < |scraped| && scraped[p].sid in l.ours
    ensures AlbumMirrors(e.assets, e.albums, scraped[p]) <==>
            BackIsWanted(google, r, l, scraped, scraped[p]) && StrangersGone(r, l, scraped, p)
  {
    var source := scraped[p];
    ListedEnds(google, s, r, l, c, d, e, orphans, scraped, source);
    SoundAfterTrash(google, s, r, l, c, d, e, orphans, scraped);
    var id, want := l.ours[source.sid], l.wants[source.sid];
    CompletedAssets(google, s, r, l, c, d, e, orphans, scraped);
    hide Completed, Hidden, Progress, Sound, AlbumMirrors, BackIsWanted, ShowsExactly, UniqueMarkers, StrangersGone, Strangers, WantedBy,
      Grown, Pictured;
    if !BackIsWanted(google, r, l, scraped, source) {
      var x := NotWantedBack(google, r, l, scraped, source);
      HiddenShows(google, s, r, l, c, d, e, orphans, scraped, id, x);
      ShownMeansPictured(google, e, source, id, x);
    } else if !StrangersGone(r, l, scraped, p) {
      var x := StrangerLeft(r, l, scraped, p);
      ListedExact(google, s, r, l, c, d, e, orphans, scraped, p);
      StrangerStays(google, s, r, l, c, d, e, orphans, scraped, id, x);
      WantIsWanted(l.wants, scraped, p);
      WantPictured(google, r, l, scraped, source, x);
      ShownMeansPictured(google, e, source, id, x);
    } else {
      VisibleIsWant(google, s, r, l, c, d, e, orphans, scraped, p);
      WantShows(google, s, r, l, c, d, e, orphans, scraped, source);
      MirrorsBy(e, source, id);
    }
  }

  // The strangers in the album were wanted by it or by an album before it.
  ghost predicate StrangersGone(r: State, l: State, scraped: seq<Source>, p: nat)
    requires p < |scraped| && scraped[p].sid in l.ours
  {
    Strangers(r, l.ours[scraped[p].sid]) <= WantedBy(l.wants, scraped[..p + 1])
  }

  lemma StrangerLeft(r: State, l: State, scraped: seq<Source>, p: nat) returns (x: nat)
    requires p < |scraped| && scraped[p].sid in l.ours && !StrangersGone(r, l, scraped, p)
    ensures x in Strangers(r, l.ours[scraped[p].sid]) && x !in WantedBy(l.wants, scraped[..p + 1])
  {
    x :| x in Strangers(r, l.ours[scraped[p].sid]) && x !in WantedBy(l.wants, scraped[..p + 1]);
  }

  // Whatever was out of sight in the album and is listed anywhere is listed for it.
  ghost predicate BackIsWanted(google: map<string, Content>, r: State, l: State, scraped: seq<Source>, source: Source)
    requires source.sid in l.ours
  {
    forall x :: x in Hidden(r, l.ours[source.sid]) && x in r.assets && Pictured(google, r.assets[x].content, AllPhotos(scraped)) ==>
      Pictured(google, r.assets[x].content, PhotoSet(source.photos))
  }

  lemma NotWantedBack(google: map<string, Content>, r: State, l: State, scraped: seq<Source>, source: Source) returns (x: nat)
    requires source.sid in l.ours && !BackIsWanted(google, r, l, scraped, source)
    ensures x in Hidden(r, l.ours[source.sid]) && x in r.assets
    ensures Pictured(google, r.assets[x].content, AllPhotos(scraped)) && !Pictured(google, r.assets[x].content, PhotoSet(source.photos))
  {
    x :| x in Hidden(r, l.ours[source.sid]) && x in r.assets && Pictured(google, r.assets[x].content, AllPhotos(scraped))
         && !Pictured(google, r.assets[x].content, PhotoSet(source.photos));
  }

  lemma ShownMeansPictured(google: map<string, Content>, e: State, source: Source, id: nat, x: nat)
    requires Sound(google, e.assets) && UniqueMarkers(e.albums) && id in e.albums && e.albums[id].marker == Some(source.sid)
    requires x in e.albums[id].members && x in e.assets && !e.assets[x].trashed
    requires !Pictured(google, e.assets[x].content, PhotoSet(source.photos))
    ensures !AlbumMirrors(e.assets, e.albums, source)
  {
    hide Sound, Pictured, PhotoSet, StandsFor, Shown;
    if AlbumMirrors(e.assets, e.albums, source) {
      var i :| i in e.albums && e.albums[i].marker == Some(source.sid) &&
               ShowsExactly(e.assets, Visible(e.assets, e.albums[i].members), PhotoSet(source.photos));
      StandsPictured(google, e.assets, x, PhotoSet(source.photos));
    }
  }

  lemma VisibleIsWant(google: map<string, Content>, s: State, r: State, l: State, c: State, d: State, e: State,
                      orphans: set<nat>, scraped: seq<Source>, p: nat)
    requires Completed(google, s, r, l, c, d, e, orphans, scraped) && p < |scraped| && scraped[p].sid in l.ours
    requires BackIsWanted(google, r, l, scraped, scraped[p]) && StrangersGone(r, l, scraped, p)
    ensures l.ours[scraped[p].sid] in e.albums && scraped[p].sid in l.wants
    ensures Visible(e.assets, e.albums[l.ours[scraped[p].sid]].members) == l.wants[scraped[p].sid]
  {
    hide Completed, Hidden, Progress, Sound, Wanted, Pictured, Grown, Visible, Strangers, WantedBy;
    ListedEnds(google, s, r, l, c, d, e, orphans, scraped, scraped[p]);
    ListedExact(google, s, r, l, c, d, e, orphans, scraped, p);
    CompletedAssets(google, s, r, l, c, d, e, orphans, scraped);
    var id, want := l.ours[scraped[p].sid], l.wants[scraped[p].sid];
    forall x | x in e.albums[id].members ensures x in e.assets && (!e.assets[x].trashed <==> x in want) {
      if x in want {
        DesiredOwn(google, s, r, l, c, d, e, orphans, scraped, x);
      } else {
        HiddenShows(google, s, r, l, c, d, e, orphans, scraped, id, x);
        WantPictured(google, r, l, scraped, scraped[p], x);
      }
    }
    VisibleAre(e.assets, e.albums[id].members, want);
  }

  lemma VisibleAre(assets: Assets, members: set<nat>, want: set<nat>)
    requires want <= members && forall x :: x in members ==> x in assets && (!assets[x].trashed <==> x in want)
    ensures Visible(assets, members) == want
  {}

  lemma WantShows(google: map<string, Content>, s: State, r: State, l: State, c: State, d: State, e: State,
                  orphans: set<nat>, scraped: seq<Source>, source: Source)
    requires Completed(google, s, r, l, c, d, e, orphans, scraped) && source in scraped
    ensures source.sid in l.wants && ShowsExactly(e.assets, l.wants[source.sid], PhotoSet(source.photos))
  {
    hide Completed, Hidden, Progress, StandsFor, Shown, Sound, Grown;
    ListedEnds(google, s, r, l, c, d, e, orphans, scraped, source);
    CompletedAssets(google, s, r, l, c, d, e, orphans, scraped);
    var want := l.wants[source.sid];
    forall a | a in want ensures a in l.assets && a in e.assets && e.assets[a] == l.assets[a] && !l.assets[a].trashed {
      DesiredOwn(google, s, r, l, c, d, e, orphans, scraped, a);
    }
    PhotosWithin([source], source);
    assert ShowsExactly(l.assets, want, PhotoSet(source.photos));
    ShownAlike(l.assets, e.assets, want, PhotoSet(source.photos));
  }

  lemma MirrorsBy(e: State, source: Source, id: nat)
    requires id in e.albums && e.albums[id].marker == Some(source.sid) && e.albums[id].name == source.title
    requires ShowsExactly(e.assets, Visible(e.assets, e.albums[id].members), PhotoSet(source.photos))
    ensures AlbumMirrors(e.assets, e.albums, source)
  {
    hide ShowsExactly;
  }

  lemma ShownAlike(before: Assets, after: Assets, members: set<nat>, photos: set<string>)
    requires ShowsExactly(before, members, photos)
    requires forall a :: a in members ==> a in before && a in after && after[a] == before[a]
    ensures ShowsExactly(after, members, photos)
  {
    hide StandsFor, Shown;
    forall a | a in members ensures StandsFor(after, a, photos) {
      StandsForAlike(before, after, a, photos);
    }
    forall k | k in photos ensures Shown(after, members, k) {
      PhotoAlike(before, after, members, k);
    }
  }

  lemma StandsForAlike(before: Assets, after: Assets, a: nat, photos: set<string>)
    requires StandsFor(before, a, photos) && a in after && after[a] == before[a]
    ensures StandsFor(after, a, photos)
  {}

  lemma PhotoAlike(before: Assets, after: Assets, members: set<nat>, k: string)
    requires Shown(before, members, k)
    requires forall a :: a in members ==> a in before && a in after && after[a] == before[a]
    ensures Shown(after, members, k)
  {
    var a :| a in members && a in before && HasKey(before[a], k);
    assert HasKey(after[a], k);
  }

  // The combined album ends as the union iff its strangers are listed.
  lemma CombinedShows(google: map<string, Content>, s: State, r: State, l: State, c: State, d: State, e: State,
                      orphans: set<nat>, scraped: seq<Source>)
    requires Completed(google, s, r, l, c, d, e, orphans, scraped)
    ensures CombinedMirrors(e.assets, e.albums, scraped) <==> Strangers(r, r.combined) <= l.desired
  {
    hide Completed, Hidden, ShowsExactly, Visible, Pictured, AllPhotos, Strangers, CombinedMirrors, Sound, UniqueMarkers, Grown;
    var i := CombinedEnds(google, s, r, l, c, d, e, orphans, scraped);
    ManagedEnds(google, s, r, l, c, d, e, orphans, scraped, i);
    if Strangers(r, i) <= l.desired {
      DesiredShows(google, s, r, l, c, d, e, orphans, scraped);
      forall x | x in e.albums[i].members ensures x in e.assets && (!e.assets[x].trashed <==> x in l.desired) {
        if x in l.desired {
          DesiredOwn(google, s, r, l, c, d, e, orphans, scraped, x);
        } else {
          HiddenShows(google, s, r, l, c, d, e, orphans, scraped, i, x);
        }
      }
      VisibleAre(e.assets, e.albums[i].members, l.desired);
      CombinedBy(e, scraped, i);
    } else {
      var x :| x in Strangers(r, i) && x !in l.desired;
      StrangerStays(google, s, r, l, c, d, e, orphans, scraped, i, x);
      CompletedAssets(google, s, r, l, c, d, e, orphans, scraped);
      DesiredPictured(google, r, l, scraped, x);
      SoundAfterTrash(google, s, r, l, c, d, e, orphans, scraped);
      CombinedPictured(google, e, scraped, i, x);
    }
  }

  lemma CombinedBy(e: State, scraped: seq<Source>, i: nat)
    requires i in e.albums && e.albums[i].marker == Some(COMBINED)
    requires ShowsExactly(e.assets, Visible(e.assets, e.albums[i].members), AllPhotos(scraped))
    ensures CombinedMirrors(e.assets, e.albums, scraped)
  {
    hide ShowsExactly;
  }

  lemma CombinedPictured(google: map<string, Content>, e: State, scraped: seq<Source>, i: nat, x: nat)
    requires Sound(google, e.assets) && UniqueMarkers(e.albums) && i in e.albums && e.albums[i].marker == Some(COMBINED)
    requires x in e.albums[i].members && x in e.assets && !e.assets[x].trashed
    requires !Pictured(google, e.assets[x].content, AllPhotos(scraped))
    ensures !CombinedMirrors(e.assets, e.albums, scraped)
  {
    hide Sound, Pictured, AllPhotos, StandsFor, Shown;
    if CombinedMirrors(e.assets, e.albums, scraped) {
      var j :| j in e.albums && e.albums[j].marker == Some(COMBINED) &&
               ShowsExactly(e.assets, Visible(e.assets, e.albums[j].members), AllPhotos(scraped));
      StandsPictured(google, e.assets, x, AllPhotos(scraped));
    }
  }

  lemma CombinedEnds(google: map<string, Content>, s: State, r: State, l: State, c: State, d: State, e: State,
                     orphans: set<nat>, scraped: seq<Source>) returns (i: nat)
    requires Completed(google, s, r, l, c, d, e, orphans, scraped)
    ensures i in e.albums && e.albums[i].marker == Some(COMBINED)
  {
    hide UniqueMarkers, HiddenTrashed, OnlyCombinedNew, ReadOf, Sound, Progress, Stepped, Dropped, Grown, OnlyCombinedTouched, Orphan;
    CombinedStays(r, l, c, d, scraped);
    i := d.combined;
  }

  lemma DesiredShows(google: map<string, Content>, s: State, r: State, l: State, c: State, d: State, e: State,
                     orphans: set<nat>, scraped: seq<Source>)
    requires Completed(google, s, r, l, c, d, e, orphans, scraped)
    ensures ShowsExactly(e.assets, l.desired, AllPhotos(scraped))
  {
    hide Completed, Progress, Wanted, StandsFor, Shown, Sound, Grown, AllPhotos, PhotoSet, Hidden;
    CompletedAssets(google, s, r, l, c, d, e, orphans, scraped);
    ProgressFrame(r, l, scraped);
    forall a | a in l.desired ensures a in e.assets && !e.assets[a].trashed && StandsFor(e.assets, a, AllPhotos(scraped)) {
      DesiredOwn(google, s, r, l, c, d, e, orphans, scraped, a);
      var m :| m in l.wants && a in l.wants[m];
      var p :| p in scraped && p.sid == m;
      WantShows(google, s, r, l, c, d, e, orphans, scraped, p);
      PhotosWithin(scraped, p);
      StandsForMore(e.assets, e.assets, a, PhotoSet(p.photos), AllPhotos(scraped));
    }
    forall k | k in AllPhotos(scraped) ensures Shown(e.assets, l.desired, k) {
      var p := PhotoSource(scraped, k);
      WantShows(google, s, r, l, c, d, e, orphans, scraped, p);
      ListedEnds(google, s, r, l, c, d, e, orphans, scraped, p);
      ShownMore(e.assets, e.assets, l.wants[p.sid], l.desired, k);
    }
  }

  // Nothing that is listed is left in the trash.
  lemma NoneLeftWaiting(google: map<string, Content>, s: State, r: State, l: State, c: State, d: State, e: State,
                        orphans: set<nat>, scraped: seq<Source>)
    requires Completed(google, s, r, l, c, d, e, orphans, scraped)
    ensures NoneWaiting(google, e.assets, scraped)
  {
    CompletedAssets(google, s, r, l, c, d, e, orphans, scraped);
    assert Progress(r, l, scraped) && l.missed == r.missed;
    hide Completed, Progress, Sound, Grown, Pictured;
    forall x | x in e.assets && e.assets[x].trashed ensures !Pictured(google, e.assets[x].content, AllPhotos(scraped)) {
      DesiredPictured(google, r, l, scraped, x);
      if x in l.desired {
        DesiredOwn(google, s, r, l, c, d, e, orphans, scraped, x);
      }
    }
  }

  // What the list brings back into an album that does not want it, as the
  // account and the list were before the run.
  lemma RevivalIsBack(google: map<string, Content>, s: State, r: State, l: State, c: State, d: State, e: State,
                      orphans: set<nat>, scraped: seq<Source>)
    requires Completed(google, s, r, l, c, d, e, orphans, scraped) && Distinct(scraped)
    ensures forall p :: p in scraped ==> p.sid in l.ours
    ensures NoRevival(google, s.assets, s.albums, scraped) <==>
            forall p :: p in scraped ==> BackIsWanted(google, r, l, scraped, p)
  {
    forall p | p in scraped ensures p.sid in l.ours && p.sid != COMBINED {
      ListedEnds(google, s, r, l, c, d, e, orphans, scraped, p);
    }
    if NoRevival(google, s.assets, s.albums, scraped) {
      forall p | p in scraped ensures BackIsWanted(google, r, l, scraped, p) {
        RevivalToBack(google, s, r, l, c, d, e, orphans, scraped, p);
      }
    }
    if forall p :: p in scraped ==> BackIsWanted(google, r, l, scraped, p) {
      BackToRevival(google, s, r, l, c, d, e, orphans, scraped);
    }
  }

  lemma RevivalToBack(google: map<string, Content>, s: State, r: State, l: State, c: State, d: State, e: State,
                      orphans: set<nat>, scraped: seq<Source>, p: Source)
    requires Completed(google, s, r, l, c, d, e, orphans, scraped) && Distinct(scraped)
    requires p in scraped && p.sid in l.ours && p.sid != COMBINED && NoRevival(google, s.assets, s.albums, scraped)
    ensures BackIsWanted(google, r, l, scraped, p)
  {
    ListedEnds(google, s, r, l, c, d, e, orphans, scraped, p);
    PhotosForListed(scraped, p);
    SidsHas(scraped, p);
    var id := l.ours[p.sid];
    if Hidden(r, id) != {} {
      HiddenIsOld(s, r, l, scraped, p);
      hide Completed, Pictured, PhotosFor, PhotoSet, Sids;
      forall x | x in Hidden(r, id) && x in r.assets && Pictured(google, r.assets[x].content, AllPhotos(scraped))
        ensures Pictured(google, r.assets[x].content, PhotoSet(p.photos))
      {
        HiddenShows(google, s, r, l, c, d, e, orphans, scraped, id, x);
        assert Revives(google, s.assets, s.albums, scraped, id, x);
      }
    }
  }

  // An album with members out of sight was there before the run.
  lemma HiddenIsOld(s: State, r: State, l: State, scraped: seq<Source>, p: Source)
    requires OnlyCombinedNew(s, r) && ReadOf(s, r) && Progress(r, l, scraped) && p in scraped && p.sid in l.ours && p.sid != COMBINED
    requires Stepped(r, l, Sids(scraped)) && Hidden(r, l.ours[p.sid]) != {}
    ensures var id := l.ours[p.sid];
            && id in s.albums && id in r.albums && r.albums[id] == s.albums[id] && s.albums[id].marker == Some(p.sid)
            && r.assets == s.assets && Hidden(r, id) <= s.albums[id].members
  {
    hide Owned, Fulfilled, ExactAt, Untouched, UnionOfWants, Counted, Grown, Syncing, LosesOnlyOwn, KeysRead, Unread;
    assert Linked(l);
  }

  lemma BackToRevival(google: map<string, Content>, s: State, r: State, l: State, c: State, d: State, e: State,
                      orphans: set<nat>, scraped: seq<Source>)
    requires Completed(google, s, r, l, c, d, e, orphans, scraped) && Distinct(scraped)
    requires forall p :: p in scraped ==> p.sid in l.ours && p.sid != COMBINED && BackIsWanted(google, r, l, scraped, p)
    ensures NoRevival(google, s.assets, s.albums, scraped)
  {
    forall i, x | Revives(google, s.assets, s.albums, scraped, i, x)
      ensures Pictured(google, s.assets[x].content, PhotosFor(scraped, s.albums[i].marker))
    {
      var p :| p in scraped && p.sid == s.albums[i].marker.value;
      PhotosForListed(scraped, p);
      TrashedIsHidden(s, r, l, scraped, p, i, x);
      assert BackIsWanted(google, r, l, scraped, p);
      hide Completed, Pictured, PhotosFor, PhotoSet, Hidden;
      assert Pictured(google, r.assets[x].content, PhotoSet(p.photos));
    }
  }

  lemma TrashedIsHidden(s: State, r: State, l: State, scraped: seq<Source>, p: Source, i: nat, x: nat)
    requires UniqueMarkers(s.albums) && OnlyCombinedNew(s, r) && ReadOf(s, r) && Progress(r, l, scraped) && p.sid != COMBINED
    requires i in s.albums && s.albums[i].marker == Some(p.sid) && x in s.albums[i].members && x in s.assets && s.assets[x].trashed
    ensures p.sid in l.ours && l.ours[p.sid] == i && x in Hidden(r, i) && r.assets == s.assets
  {
    hide Owned, Fulfilled, ExactAt, Untouched, UnionOfWants, Counted, Grown, Syncing, LosesOnlyOwn, KeysRead, Unread;
    assert r.ours[p.sid] == i && i in r.members;
  }

  // Wanted so far are the assets of the bytes listed so far.
  lemma WantedPictured(google: map<string, Content>, r: State, l: State, scraped: seq<Source>, n: nat, a: nat)
    requires Sound(google, l.assets) && Progress(r, l, scraped) && l.missed == r.missed && a in l.assets && n <= |scraped|
    ensures a in WantedBy(l.wants, scraped[..n]) <==> Pictured(google, l.assets[a].content, AllPhotos(scraped[..n]))
  {
    hide Progress, Sound, PhotoSet;
    if a in WantedBy(l.wants, scraped[..n]) {
      var d :| d in scraped[..n] && d.sid in l.wants && a in l.wants[d.sid];
      assert d in scraped;
      WantPictured(google, r, l, scraped, d, a);
      var k :| k in PhotoSet(d.photos) && k in google && google[k] == l.assets[a].content;
      PhotosWithin(scraped[..n], d);
      assert k in AllPhotos(scraped[..n]);
    }
    if k :| k in AllPhotos(scraped[..n]) && k in google && google[k] == l.assets[a].content {
      var d := PhotoSource(scraped[..n], k);
      assert d in scraped;
      WantPictured(google, r, l, scraped, d, a);
    }
  }

  // The condition on strangers in terms of the account before the run.
  lemma StrangersListedIff(google: map<string, Content>, s: State, r: State, l: State, c: State, d: State, e: State,
                           orphans: set<nat>, scraped: seq<Source>)
    requires Completed(google, s, r, l, c, d, e, orphans, scraped) && Distinct(scraped)
    requires forall p :: 0 <= p < |scraped| ==> scraped[p].sid in l.ours
    ensures StrangersListed(google, s.assets, s.albums, scraped) <==>
            && Strangers(r, r.combined) <= l.desired
            && forall p :: 0 <= p < |scraped| ==> StrangersGone(r, l, scraped, p)
  {
    hide *;
    CompletedReads(google, s, r, l, c, d, e, orphans, scraped);
    CompletedAssets(google, s, r, l, c, d, e, orphans, scraped);
    if StrangersListed(google, s.assets, s.albums, scraped) {
      StrangersAllGone(google, s, r, l, scraped);
    }
    if Strangers(r, r.combined) <= l.desired && forall p :: 0 <= p < |scraped| ==> StrangersGone(r, l, scraped, p) {
      StrangersInTime(google, s, r, l, scraped);
    }
  }

  lemma StrangersAllGone(google: map<string, Content>, s: State, r: State, l: State, scraped: seq<Source>)
    requires Sound(google, l.assets) && Grown(r.assets, l.assets) && l.missed == r.missed
    requires OnlyCombinedNew(s, r) && ReadOf(s, r) && r.assets == s.assets && Progress(r, l, scraped) && Stepped(r, l, Sids(scraped))
    requires StrangersListed(google, s.assets, s.albums, scraped) && forall p :: 0 <= p < |scraped| ==> scraped[p].sid in l.ours
    ensures Strangers(r, r.combined) <= l.desired
    ensures forall p :: 0 <= p < |scraped| ==> StrangersGone(r, l, scraped, p)
  {
    hide Progress, Stepped, Sound, Grown, ReadOf, OnlyCombinedNew, Sids, StrangersListed, Strangers, WantedBy;
    forall a | a in Strangers(r, r.combined) ensures a in l.desired {
      CombinedStranger(google, s, r, l, scraped, a);
    }
    forall p | 0 <= p < |scraped| ensures StrangersGone(r, l, scraped, p) {
      forall a | a in Strangers(r, l.ours[scraped[p].sid]) ensures a in WantedBy(l.wants, scraped[..p + 1]) {
        ListedStranger(google, s, r, l, scraped, p, a);
      }
    }
  }

  lemma StrangersInTime(google: map<string, Content>, s: State, r: State, l: State, scraped: seq<Source>)
    requires Sound(google, l.assets) && Grown(r.assets, l.assets) && l.missed == r.missed && UniqueMarkers(s.albums)
    requires OnlyCombinedNew(s, r) && ReadOf(s, r) && r.assets == s.assets && Progress(r, l, scraped)
    requires forall p :: 0 <= p < |scraped| ==> scraped[p].sid in l.ours && StrangersGone(r, l, scraped, p)
    requires Strangers(r, r.combined) <= l.desired
    ensures StrangersListed(google, s.assets, s.albums, scraped)
  {
    hide Progress, Sound, Grown, ReadOf, OnlyCombinedNew, UniqueMarkers, ListedInTime, Strangers, StrangersGone;
    forall i, a | Stranger(s.assets, s.albums, i, a) ensures ListedInTime(google, s.assets[a].content, scraped, s.albums[i].marker) {
      StrangerInTime(google, s, r, l, scraped, i, a);
    }
  }

  lemma CombinedStranger(google: map<string, Content>, s: State, r: State, l: State, scraped: seq<Source>, a: nat)
    requires Sound(google, l.assets) && Grown(r.assets, l.assets) && l.missed == r.missed
    requires OnlyCombinedNew(s, r) && ReadOf(s, r) && r.assets == s.assets && Progress(r, l, scraped)
    requires StrangersListed(google, s.assets, s.albums, scraped) && a in Strangers(r, r.combined)
    ensures a in l.desired
  {
    StrangerRead(s, r, r.combined, a);
    GrownContent(r.assets, l.assets, a);
    DesiredPictured(google, r, l, scraped, a);
    ReadCombined(s, r);
    hide Sound, Grown, OnlyCombinedNew, ReadOf, Progress, Pictured, Strangers, Stranger;
    assert ListedInTime(google, s.assets[a].content, scraped, s.albums[r.combined].marker);
  }

  lemma ReadCombined(s: State, r: State)
    requires ReadOf(s, r)
    ensures r.combined in r.albums && r.albums[r.combined].marker == Some(COMBINED)
  {
    hide KeysRead;
  }

  lemma ListedStranger(google: map<string, Content>, s: State, r: State, l: State, scraped: seq<Source>, p: nat, a: nat)
    requires Sound(google, l.assets) && Grown(r.assets, l.assets) && l.missed == r.missed
    requires OnlyCombinedNew(s, r) && ReadOf(s, r) && r.assets == s.assets && Progress(r, l, scraped) && Stepped(r, l, Sids(scraped))
    requires StrangersListed(google, s.assets, s.albums, scraped)
    requires p < |scraped| && scraped[p].sid in l.ours && a in Strangers(r, l.ours[scraped[p].sid])
    ensures a in WantedBy(l.wants, scraped[..p + 1])
  {
    var i := l.ours[scraped[p].sid];
    StrangerRead(s, r, i, a);
    GrownContent(r.assets, l.assets, a);
    WantedPictured(google, r, l, scraped, p + 1, a);
    ReadUnder(r, l, scraped, scraped[p].sid);
    hide Sound, Grown, OnlyCombinedNew, ReadOf, Progress, Stepped, Pictured, Strangers, Stranger, WantedBy, Sids;
    assert ListedInTime(google, s.assets[a].content, scraped, s.albums[i].marker);
  }

  lemma ReadUnder(r: State, l: State, scraped: seq<Source>, sid: string)
    requires Progress(r, l, scraped) && Stepped(r, l, Sids(scraped)) && sid in l.ours
    ensures l.ours[sid] in l.albums && l.albums[l.ours[sid]].marker == Some(sid)
    ensures l.ours[sid] in r.albums ==> r.albums[l.ours[sid]].marker == Some(sid)
  {
    hide Owned, Fulfilled, ExactAt, Untouched, UnionOfWants, Counted, Grown, Syncing, LosesOnlyOwn, Unread;
    assert Linked(l);
  }

  lemma StrangerInTime(google: map<string, Content>, s: State, r: State, l: State, scraped: seq<Source>, i: nat, a: nat)
    requires Sound(google, l.assets) && Grown(r.assets, l.assets) && l.missed == r.missed && UniqueMarkers(s.albums)
    requires OnlyCombinedNew(s, r) && ReadOf(s, r) && r.assets == s.assets && Progress(r, l, scraped)
    requires forall p :: 0 <= p < |scraped| ==> scraped[p].sid in l.ours && StrangersGone(r, l, scraped, p)
    requires Strangers(r, r.combined) <= l.desired && Stranger(s.assets, s.albums, i, a)
    ensures ListedInTime(google, s.assets[a].content, scraped, s.albums[i].marker)
  {
    StrangerSeen(s, r, i, a);
    GrownContent(r.assets, l.assets, a);
    DesiredPictured(google, r, l, scraped, a);
    OursKept(r, l, scraped);
    hide Sound, Grown, OnlyCombinedNew, ReadOf, Progress, Pictured, Strangers, Stranger, WantedBy, UniqueMarkers;
    forall p | 0 <= p < |scraped| && s.albums[i].marker == Some(scraped[p].sid)
      ensures Pictured(google, s.assets[a].content, AllPhotos(scraped[..p + 1]))
    {
      assert StrangersGone(r, l, scraped, p);
      WantedPictured(google, r, l, scraped, p + 1, a);
    }
  }

  lemma OursKept(r: State, l: State, scraped: seq<Source>)
    requires Progress(r, l, scraped)
    ensures forall m :: m in r.ours ==> m in l.ours && l.ours[m] == r.ours[m]
  {
    hide Linked, Owned, Fulfilled, ExactAt, Untouched, UnionOfWants, Counted, Sids;
  }

  lemma StrangerSeen(s: State, r: State, i: nat, a: nat)
    requires UniqueMarkers(s.albums) && OnlyCombinedNew(s, r) && ReadOf(s, r) && r.assets == s.assets
    requires Stranger(s.assets, s.albums, i, a)
    ensures s.albums[i].marker.value == COMBINED ==> i == r.combined
    ensures s.albums[i].marker.value != COMBINED ==> s.albums[i].marker.value in r.ours && r.ours[s.albums[i].marker.value] == i
    ensures a in r.assets && a in Strangers(r, i)
  {
    hide Syncing;
    assert i in r.members && r.albums[i] == s.albums[i];
  }

  // A completed run leaves the mirrored state iff nothing came back from the
  // trash into a listed album that does not want it and every photo that someone
  // else put into an album was listed in time. In any case no listed photo is
  // left in the trash, and no listed stranger in an album.
  lemma Converged(google: map<string, Content>, s: State, r: State, l: State, c: State, d: State, e: State,
                  orphans: set<nat>, scraped: seq<Source>)
    requires Completed(google, s, r, l, c, d, e, orphans, scraped) && Distinct(scraped)
    ensures Mirrored(google, e.assets, e.albums, scraped) <==>
            NoRevival(google, s.assets, s.albums, scraped) && StrangersListed(google, s.assets, s.albums, scraped)
    ensures MembersStored(e.assets, e.albums) && NoneWaiting(google, e.assets, scraped)
    ensures StrangersWere(google, s, e, scraped)
  {
    hide Completed, Sound, UniqueMarkers, MembersStored, AlbumMirrors, CombinedMirrors, NoRevival, NoneWaiting, BackIsWanted, Distinct,
      Sids, StrangersListed, StrangersGone, Strangers, Stranger, Pictured;
    SoundAfterTrash(google, s, r, l, c, d, e, orphans, scraped);
    StoredAfterTrash(google, s, r, l, c, d, e, orphans, scraped);
    NoneLeftWaiting(google, s, r, l, c, d, e, orphans, scraped);
    RevivalIsBack(google, s, r, l, c, d, e, orphans, scraped);
    StrangersListedIff(google, s, r, l, c, d, e, orphans, scraped);
    forall p | 0 <= p < |scraped|
      ensures AlbumMirrors(e.assets, e.albums, scraped[p]) <==>
              BackIsWanted(google, r, l, scraped, scraped[p]) && StrangersGone(r, l, scraped, p)
    {
      ListedMirrors(google, s, r, l, c, d, e, orphans, scraped, p);
    }
    CombinedShows(google, s, r, l, c, d, e, orphans, scraped);
    forall i | i in e.albums && e.albums[i].marker.Some?
      ensures e.albums[i].marker.value == COMBINED || e.albums[i].marker.value in Sids(scraped)
    {
      ManagedEnds(google, s, r, l, c, d, e, orphans, scraped, i);
    }
    forall a | Unalbumed(e.assets, e.albums, a) ensures e.assets[a].keys == None {
      NothingLeft(google, s, r, l, c, d, e, orphans, scraped, a);
    }
    forall i, a | Stranger(e.assets, e.albums, i, a) ensures StrangerWas(google, s, e, scraped, i, a) {
      StrangerEnds(google, s, r, l, c, d, e, orphans, scraped, i, a);
    }
  }

  // The strangers of `e` were strangers in `s`, and are listed nowhere.
  ghost predicate StrangersWere(google: map<string, Content>, s: State, e: State, scraped: seq<Source>) {
    forall i, a :: Stranger(e.assets, e.albums, i, a) ==> StrangerWas(google, s, e, scraped, i, a)
  }

  lemma StrangersAdopted(google: map<string, Content>, s: State, e: State, scraped: seq<Source>)
    requires StrangersWere(google, s, e, scraped) && EveryStrangerListed(google, s.assets, s.albums, scraped)
    ensures NoStrangers(e.assets, e.albums)
  {
    hide Pictured, AllPhotos;
  }

  ghost predicate StrangerWas(google: map<string, Content>, s: State, e: State, scraped: seq<Source>, i: nat, a: nat) {
    && Stranger(s.assets, s.albums, i, a) && a in e.assets && s.assets[a].content == e.assets[a].content
    && !Pictured(google, e.assets[a].content, AllPhotos(scraped))
  }

  // ---- the next run

  ghost function KnownOf(byKey: map<string, nat>, photos: set<string>): set<nat> {
    set k | k in photos && k in byKey :: byKey[k]
  }

  // Members showing exactly these photos are the known assets of the photos.
  lemma ShownIsKnown(google: map<string, Content>, r: State, members: set<nat>, photos: set<string>)
    requires Sound(google, r.assets) && KeysRead(r) && members <= r.known && ShowsExactly(r.assets, members, photos)
    ensures forall k :: k in photos ==> k in r.byKey
    ensures members == KnownOf(r.byKey, photos)
  {
    hide Sound;
    forall k | k in photos ensures k in r.byKey && r.byKey[k] in members {
      assert Shown(r.assets, members, k);
      var a :| a in members && a in r.assets && HasKey(r.assets[a], k);
      SoundKeysUnique(google, r.assets, a, r.byKey[k], k);
    }
    forall a | a in members ensures a in KnownOf(r.byKey, photos) {
      assert StandsFor(r.assets, a, photos);
      var k :| k in photos && HasKey(r.assets[a], k);
      SoundKeysUnique(google, r.assets, a, r.byKey[k], k);
      assert r.byKey[k] in KnownOf(r.byKey, photos);
    }
  }

  lemma SettledAlbum(google: map<string, Content>, s: State, r: State, scraped: seq<Source>, d: Source)
    requires Mirrored(google, s.assets, s.albums, scraped) && OnlyCombinedNew(s, r) && ReadOf(s, r) && r.assets == s.assets
    requires d in scraped && d.sid != COMBINED
    ensures InSync(r, d)
  {
    var i := MirroredAlbum(google, s, scraped, d);
    SettledWhich(s, r, d, i);
    ReadShows(s, r, i);
    hide Mirrored, ReadOf, OnlyCombinedNew, Sound, ShowsExactly, KeysRead;
    ShownIsKnown(google, r, r.members[i], PhotoSet(d.photos));
    assert KnownOf(r.byKey, PhotoSet(d.photos)) == Known(r.byKey, d.photos);
  }

  lemma MirroredAlbum(google: map<string, Content>, s: State, scraped: seq<Source>, d: Source) returns (i: nat)
    requires Mirrored(google, s.assets, s.albums, scraped) && d in scraped
    ensures Sound(google, s.assets) && UniqueMarkers(s.albums)
    ensures i in s.albums && s.albums[i].marker == Some(d.sid) && s.albums[i].name == d.title
    ensures ShowsExactly(s.assets, Visible(s.assets, s.albums[i].members), PhotoSet(d.photos))
  {
    hide Sound, UniqueMarkers, MembersStored, ShowsExactly, CombinedMirrors, Unalbumed;
    assert AlbumMirrors(s.assets, s.albums, d);
    i :| i in s.albums && s.albums[i].marker == Some(d.sid) && s.albums[i].name == d.title &&
         ShowsExactly(s.assets, Visible(s.assets, s.albums[i].members), PhotoSet(d.photos));
  }

  lemma SettledWhich(s: State, r: State, d: Source, i: nat)
    requires UniqueMarkers(s.albums) && OnlyCombinedNew(s, r) && ReadOf(s, r) && d.sid != COMBINED
    requires i in s.albums && s.albums[i].marker == Some(d.sid)
    ensures d.sid in r.ours && r.ours[d.sid] == i && i in r.members && i in r.albums && r.albums[i] == s.albums[i]
    ensures KeysRead(r)
  {
    hide KeysRead, Syncing;
  }

  lemma ReadShows(s: State, r: State, i: nat)
    requires ReadOf(s, r) && i in r.members
    ensures i in r.albums && r.members[i] == Visible(r.assets, r.albums[i].members) && r.members[i] <= r.known
  {
    hide KeysRead, Linked;
  }

  lemma SettledCombined(google: map<string, Content>, s: State, r: State, scraped: seq<Source>)
    requires Mirrored(google, s.assets, s.albums, scraped) && OnlyCombinedNew(s, r) && ReadOf(s, r) && r.assets == s.assets
    ensures r.albums == s.albums && r.log == s.log
    ensures r.members[r.combined] == KnownAll(r.byKey, scraped)
  {
    var i :| i in s.albums && s.albums[i].marker == Some(COMBINED) &&
             ShowsExactly(s.assets, Visible(s.assets, s.albums[i].members), AllPhotos(scraped));
    hide Sound, MembersStored, ShowsExactly, AlbumMirrors, CombinedMirrors, KeysRead;
    assert r.combined == i;
    ReadShows(s, r, i);
    ShownIsKnown(google, r, r.members[i], AllPhotos(scraped));
    assert KnownOf(r.byKey, AllPhotos(scraped)) == KnownAll(r.byKey, scraped);
  }

  lemma SettledOurs(google: map<string, Content>, s: State, r: State, scraped: seq<Source>)
    requires Mirrored(google, s.assets, s.albums, scraped) && OnlyCombinedNew(s, r) && ReadOf(s, r)
    ensures r.ours.Keys <= Sids(scraped)
  {
    hide Sound, MembersStored, AlbumMirrors, CombinedMirrors, KeysRead, Sids, Unalbumed;
  }

  lemma SettledKnown(google: map<string, Content>, s: State, r: State, scraped: seq<Source>, a: nat)
    requires Mirrored(google, s.assets, s.albums, scraped) && OnlyCombinedNew(s, r) && ReadOf(s, r) && r.assets == s.assets
    requires COMBINED !in Sids(scraped) && a in r.known
    ensures a in KnownAll(r.byKey, scraped)
  {
    SettledCombined(google, s, r, scraped);
    SettledOurs(google, s, r, scraped);
    var i :| i in r.members && a in r.members[i];
    ReadMarked(s, r, i);
    if i != r.combined {
      var m :| m in r.ours && r.ours[m] == i;
      assert m in Sids(scraped);
      var d :| d in scraped && d.sid == m;
      SettledAlbum(google, s, r, scraped, d);
      hide Mirrored, ReadOf, OnlyCombinedNew;
      KnownWithin(r.byKey, scraped, d);
    }
  }

  // From the mirrored state a run finds nothing to create, rename, add, remove, delete or trash.
  lemma NothingToTrash(google: map<string, Content>, s: State, r: State, t: State, scraped: seq<Source>, a: nat)
    requires Mirrored(google, s.assets, s.albums, scraped) && OnlyCombinedNew(s, r) && ReadOf(s, r) && r.assets == s.assets
    requires COMBINED !in Sids(scraped) && t == r.(desired := KnownAll(r.byKey, scraped), wants := t.wants)
    ensures !Orphan(t, a)
  {
    SettledCombined(google, s, r, scraped);
    if a in r.known {
      SettledKnown(google, s, r, scraped, a);
    }
    hide Sound, UniqueMarkers, MembersStored, AlbumMirrors, CombinedMirrors, KnownAll, Linked, Sids, Foreign;
  }

  lemma KnownWithin(byKey: map<string, nat>, scraped: seq<Source>, d: Source)
    requires d in scraped
    ensures Known(byKey, d.photos) <= KnownAll(byKey, scraped)
  {}

  lemma SidsInclude(scraped: seq<Source>)
    ensures forall d :: d in scraped ==> d.sid in Sids(scraped)
  {}

  lemma Settled(google: map<string, Content>, s: State, r: State, scraped: seq<Source>)
    requires Mirrored(google, s.assets, s.albums, scraped) && OnlyCombinedNew(s, r) && ReadOf(s, r)
    requires COMBINED !in Sids(scraped)
    ensures r.albums == s.albums && r.log == s.log && r.assets == s.assets && r.ours.Keys <= Sids(scraped)
    ensures AllInSync(r, scraped)
  {
    hide Mirrored, KnownAll, InSync, OnlyCombinedNew, KeysRead;
    assert r.assets == s.assets && r.combined in r.members by {
      assert Linked(r);
    }
    SettledCombined(google, s, r, scraped);
    SettledOurs(google, s, r, scraped);
    SidsInclude(scraped);
    forall d | d in scraped ensures InSync(r, d) {
      SettledAlbum(google, s, r, scraped, d);
    }
  }

  ghost predicate AllInSync(r: State, scraped: seq<Source>) {
    && (forall d :: d in scraped ==> InSync(r, d))
    && r.combined in r.members && r.members[r.combined] == KnownAll(r.byKey, scraped)
  }

  lemma SettledAlbums(google: map<string, Content>, s: State, r: State, scraped: seq<Source>)
    requires Mirrored(google, s.assets, s.albums, scraped) && OnlyCombinedNew(s, r)
    ensures r.albums == s.albums && r.log == s.log
  {
    hide Sound, MembersStored, AlbumMirrors, ShowsExactly, Unalbumed;
  }
}
