// The Immich account the photo mirror works on: assets with their content,
// the media keys recorded on them and the trash, and albums with their markers.

module MirrorStore {
  import opened Options

  type Content = seq<nat>

  // `keys` is the gphotos-sync metadata: the media keys an asset stands for.
  datatype Asset = Asset(content: Content, keys: Option<set<string>>, trashed: bool)

  // `marker` is the [gphotos-sync:...] marker of the description.
  datatype Album = Album(name: string, marker: Option<string>, members: set<nat>)

  type Assets = map<nat, Asset>

  type Albums = map<nat, Album>

  const COMBINED := "combined"

  // A write Immich carried out; removals and deletions record the album's marker.
  datatype Write =
    | CreateAlbum(album: nat)
    | RenameAlbum(album: nat)
    | DeleteAlbum(album: nat, marker: Option<string>)
    | AddTo(album: nat, ids: set<nat>)
    | RemoveFrom(album: nat, marker: Option<string>, ids: set<nat>)
    | Upload(asset: nat)
    | SetKeys(asset: nat)
    | Restore(asset: nat)
    | Trash(ids: set<nat>)

  // What was read of one active list item.
  datatype Reading = Failed | Got(sid: string, title: string, photos: seq<string>)

  datatype Source = Source(sid: string, title: string, photos: seq<string>)

  // ---- the list

  function Sids(scraped: seq<Source>): set<string> {
    set s | s in scraped :: s.sid
  }

  // The readable albums in list order, a repeated album only once.
  function Scraped(readings: seq<Reading>): seq<Source> {
    if readings == [] then []
    else
      var before, r := Scraped(readings[..|readings| - 1]), readings[|readings| - 1];
      if r.Failed? || r.sid in Sids(before) then before else before + [Source(r.sid, r.title, r.photos)]
  }

  lemma ScrapedNone()
    ensures Scraped([]) == []
  {}

  lemma SidsHold(scraped: seq<Source>)
    ensures forall i :: 0 <= i < |scraped| ==> scraped[i].sid in Sids(scraped)
  {}

  lemma ScrapedStep(readings: seq<Reading>, r: Reading)
    ensures Scraped(readings + [r]) ==
            if r.Failed? || r.sid in Sids(Scraped(readings)) then Scraped(readings)
            else Scraped(readings) + [Source(r.sid, r.title, r.photos)]
  {
    var all := readings + [r];
    assert all[..|all| - 1] == readings && all[|all| - 1] == r;
  }

  // The first reading of its album.
  ghost predicate FirstReading(readings: seq<Reading>, i: nat) {
    && i < |readings| && readings[i].Got?
    && forall j :: 0 <= j < i && readings[j].Got? ==> readings[j].sid != readings[i].sid
  }

  // The readable albums are the first readings, all of them, in list order.
  lemma {:induction false} ScrapedAre(readings: seq<Reading>) returns (at: seq<nat>)
    ensures FirstReadings(readings, Scraped(readings), at)
  {
    at := [];
    if readings != [] {
      var before, last := readings[..|readings| - 1], |readings| - 1;
      at := ScrapedAre(before);
      hide FirstReadings, FirstReading, Sids;
      ReadBefore(readings, Scraped(before), at);
      if readings[last].Got? && readings[last].sid !in Sids(Scraped(before)) {
        FirstReadingsMore(readings, Scraped(before), at);
        at := at + [last];
      } else {
        FirstReadingsStay(readings, Scraped(before), at);
      }
    }
  }

  ghost predicate FirstReadings(readings: seq<Reading>, scraped: seq<Source>, at: seq<nat>) {
    && |at| == |scraped|
    && (forall n :: 0 <= n < |at| ==> FirstReading(readings, at[n]) && IsSource(scraped[n], readings[at[n]]))
    && (forall m, n :: 0 <= m < n < |at| ==> at[m] < at[n])
    && (forall i: nat :: FirstReading(readings, i) ==> i in at)
  }

  ghost predicate IsSource(d: Source, r: Reading) {
    r.Got? && d == Source(r.sid, r.title, r.photos)
  }

  // The last reading is a first one iff its album is not among the earlier.
  lemma ReadBefore(readings: seq<Reading>, scraped: seq<Source>, at: seq<nat>)
    requires readings != [] && FirstReadings(readings[..|readings| - 1], scraped, at)
    ensures var last := |readings| - 1;
            FirstReading(readings, last) <==> readings[last].Got? && readings[last].sid !in Sids(scraped)
  {
    var before, last := readings[..|readings| - 1], |readings| - 1;
    if readings[last].Got? {
      if readings[last].sid in Sids(scraped) {
        var n :| 0 <= n < |scraped| && scraped[n].sid == readings[last].sid;
        assert FirstReading(before, at[n]) && IsSource(scraped[n], before[at[n]]);
        assert readings[at[n]] == before[at[n]];
      }
      if j :| 0 <= j < last && readings[j].Got? && readings[j].sid == readings[last].sid {
        var f := FirstOfAlbum(before, j);
        var n :| 0 <= n < |at| && at[n] == f;
        assert IsSource(scraped[n], before[at[n]]) && scraped[n] in scraped;
      }
    }
  }

  lemma {:induction false} FirstOfAlbum(readings: seq<Reading>, j: nat) returns (f: nat)
    requires j < |readings| && readings[j].Got?
    ensures FirstReading(readings, f) && readings[f].sid == readings[j].sid
    decreases j
  {
    if i :| 0 <= i < j && readings[i].Got? && readings[i].sid == readings[j].sid {
      f := FirstOfAlbum(readings, i);
    } else {
      f := j;
    }
  }

  lemma FirstReadingsStay(readings: seq<Reading>, scraped: seq<Source>, at: seq<nat>)
    requires readings != [] && FirstReadings(readings[..|readings| - 1], scraped, at) && !FirstReading(readings, |readings| - 1)
    ensures FirstReadings(readings, scraped, at)
  {
    FirstsBefore(readings);
    hide FirstReading;
  }

  lemma FirstReadingsMore(readings: seq<Reading>, scraped: seq<Source>, at: seq<nat>)
    requires readings != [] && FirstReadings(readings[..|readings| - 1], scraped, at) && FirstReading(readings, |readings| - 1)
    ensures readings[|readings| - 1].Got?
    ensures var r := readings[|readings| - 1];
            FirstReadings(readings, scraped + [Source(r.sid, r.title, r.photos)], at + [|readings| - 1])
  {
    FirstsBefore(readings);
    assert readings[|readings| - 1].Got?;
    hide FirstReading;
    var more := at + [|readings| - 1];
    assert more[|at|] == |readings| - 1;
    forall i | i in at ensures i in more {
      var n :| 0 <= n < |at| && at[n] == i;
      assert more[n] == i;
    }
  }

  lemma FirstsBefore(readings: seq<Reading>)
    requires readings != []
    ensures var before, last := readings[..|readings| - 1], |readings| - 1;
            && (forall i: nat :: i < last ==> (FirstReading(readings, i) <==> FirstReading(before, i)))
            && (forall i: nat :: FirstReading(before, i) ==> i < last)
            && (forall i: nat :: FirstReading(readings, i) ==> i <= last)
  {}

  predicate Complete(readings: seq<Reading>) {
    forall r :: r in readings ==> r.Got?
  }

  // ---- the store

  function HasKey(a: Asset, k: string): bool {
    a.keys.Some? && k in a.keys.value
  }

  function Visible(assets: Assets, ids: set<nat>): set<nat> {
    set a | a in ids && a in assets && !assets[a].trashed
  }

  // (to add, to remove): only our own assets are ever removed.
  function PlanAlbum(want: set<nat>, current: set<nat>, mine: set<nat>): (set<nat>, set<nat>) {
    (want - current, (current * mine) - want)
  }

  // One asset per content, and a recorded key's bytes are the asset's.
  ghost predicate Sound(google: map<string, Content>, assets: Assets) {
    && (forall x, y :: x in assets && y in assets && assets[x].content == assets[y].content ==> x == y)
    && (forall x, k :: x in assets && HasKey(assets[x], k) ==> k in google && google[k] == assets[x].content)
  }

  // Nothing lost: content stays, keys only accumulate, nothing goes to the trash.
  ghost predicate Grown(before: Assets, after: Assets) {
    forall x :: x in before ==>
      && x in after && after[x].content == before[x].content
      && (!before[x].trashed ==> !after[x].trashed)
      && (before[x].keys.Some? ==> after[x].keys.Some? && before[x].keys.value <= after[x].keys.value)
  }

  // Brought back from the trash, or with keys it did not have.
  ghost function Changed(before: Assets, after: Assets): set<nat> {
    set x | x in before && x in after && after[x] != before[x]
  }

  lemma GrownTransitive(a: Assets, b: Assets, c: Assets)
    requires Grown(a, b) && Grown(b, c)
    ensures Grown(a, c)
  {}

  ghost predicate UniqueMarkers(albums: Albums) {
    forall i, j :: i in albums && j in albums && albums[i].marker.Some? && albums[i].marker == albums[j].marker ==> i == j
  }

  // In a managed album and not in the trash.
  ghost predicate Managed(assets: Assets, albums: Albums, a: nat) {
    exists i :: i in albums && albums[i].marker.Some? && a in Visible(assets, albums[i].members)
  }

  ghost predicate Foreign(albums: Albums, a: nat) {
    exists i :: i in albums && albums[i].marker == None && a in albums[i].members
  }

  ghost predicate Unalbumed(assets: Assets, albums: Albums, a: nat) {
    a in assets && !assets[a].trashed && forall i :: i in albums ==> a !in albums[i].members
  }

  // The members of managed albums exist. One that someone moved to the trash
  // stays a member, out of sight.
  ghost predicate MembersStored(assets: Assets, albums: Albums) {
    forall i, a :: i in albums && albums[i].marker.Some? && a in albums[i].members ==> a in assets
  }

  // A photo someone else put into a managed album.
  ghost predicate Stranger(assets: Assets, albums: Albums, i: nat, a: nat) {
    i in albums && albums[i].marker.Some? && a in Visible(assets, albums[i].members) && assets[a].keys == None
  }

  ghost predicate NoStrangers(assets: Assets, albums: Albums) {
    forall i, a :: !Stranger(assets, albums, i, a)
  }

  // ---- the mirrored state

  function PhotoSet(photos: seq<string>): set<string> {
    set k | k in photos
  }

  // Asset `a` stands for one of the photos.
  ghost predicate StandsFor(assets: Assets, a: nat, photos: set<string>) {
    a in assets && exists k :: k in photos && HasKey(assets[a], k)
  }

  // One of the members stands for photo `k`.
  ghost predicate Shown(assets: Assets, members: set<nat>, k: string) {
    exists a :: a in members && a in assets && HasKey(assets[a], k)
  }

  // These members show exactly the given photos.
  ghost predicate ShowsExactly(assets: Assets, members: set<nat>, photos: set<string>) {
    && (forall a :: a in members ==> a in assets && !assets[a].trashed && StandsFor(assets, a, photos))
    && (forall k :: k in photos ==> Shown(assets, members, k))
  }

  function AllPhotos(scraped: seq<Source>): set<string> {
    set s, k | s in scraped && k in s.photos :: k
  }

  // The photos of the album with this marker.
  function PhotosFor(scraped: seq<Source>, marker: Option<string>): set<string> {
    if marker == Some(COMBINED) then AllPhotos(scraped)
    else set s, k | s in scraped && marker == Some(s.sid) && k in s.photos :: k
  }

  // One of the photos has these bytes.
  ghost predicate Pictured(google: map<string, Content>, content: Content, photos: set<string>) {
    exists k :: k in photos && k in google && google[k] == content
  }

  ghost predicate AlbumMirrors(assets: Assets, albums: Albums, s: Source) {
    exists i :: i in albums && albums[i].marker == Some(s.sid) && albums[i].name == s.title &&
                ShowsExactly(assets, Visible(assets, albums[i].members), PhotoSet(s.photos))
  }

  ghost predicate CombinedMirrors(assets: Assets, albums: Albums, scraped: seq<Source>) {
    exists i :: i in albums && albums[i].marker == Some(COMBINED) &&
                ShowsExactly(assets, Visible(assets, albums[i].members), AllPhotos(scraped))
  }

  // Every listed album mirrored, the combined album their union, no other
  // managed album, and nothing of ours outside all albums.
  ghost predicate Mirrored(google: map<string, Content>, assets: Assets, albums: Albums, scraped: seq<Source>) {
    && Sound(google, assets) && UniqueMarkers(albums) && MembersStored(assets, albums)
    && (forall s :: s in scraped ==> AlbumMirrors(assets, albums, s))
    && CombinedMirrors(assets, albums, scraped)
    && (forall i :: i in albums && albums[i].marker.Some? ==>
          albums[i].marker.value == COMBINED || albums[i].marker.value in Sids(scraped))
    && (forall a :: Unalbumed(assets, albums, a) ==> assets[a].keys == None)
  }

  // A trashed member of a listed album that the list brings back is wanted there.
  ghost predicate NoRevival(google: map<string, Content>, assets: Assets, albums: Albums, scraped: seq<Source>) {
    forall i, x :: Revives(google, assets, albums, scraped, i, x) ==>
      Pictured(google, assets[x].content, PhotosFor(scraped, albums[i].marker))
  }

  ghost predicate Revives(google: map<string, Content>, assets: Assets, albums: Albums, scraped: seq<Source>, i: nat, x: nat) {
    && i in albums && albums[i].marker.Some? && albums[i].marker.value in Sids(scraped)
    && x in albums[i].members && x in assets && assets[x].trashed
    && Pictured(google, assets[x].content, AllPhotos(scraped))
  }

  // Someone else's photo in a listed album is listed for it or for an album before
  // it in the list, and one in the combined album is listed anywhere.
  ghost predicate StrangersListed(google: map<string, Content>, assets: Assets, albums: Albums, scraped: seq<Source>) {
    forall i, a :: Stranger(assets, albums, i, a) ==> ListedInTime(google, assets[a].content, scraped, albums[i].marker)
  }

  ghost predicate ListedInTime(google: map<string, Content>, content: Content, scraped: seq<Source>, marker: Option<string>) {
    && (marker == Some(COMBINED) ==> Pictured(google, content, AllPhotos(scraped)))
    && (forall p :: 0 <= p < |scraped| && marker == Some(scraped[p].sid) ==>
          Pictured(google, content, AllPhotos(scraped[..p + 1])))
  }

  ghost predicate EveryStrangerListed(google: map<string, Content>, assets: Assets, albums: Albums, scraped: seq<Source>) {
    forall i, a :: Stranger(assets, albums, i, a) ==> Pictured(google, assets[a].content, AllPhotos(scraped))
  }

  // No listed photo is still in the trash.
  ghost predicate NoneWaiting(google: map<string, Content>, assets: Assets, scraped: seq<Source>) {
    forall x :: x in assets && assets[x].trashed ==> !Pictured(google, assets[x].content, AllPhotos(scraped))
  }

  lemma NothingToSettle(google: map<string, Content>, assets: Assets, albums: Albums, scraped: seq<Source>)
    ensures NoneWaiting(google, assets, scraped) ==> NoRevival(google, assets, albums, scraped)
    ensures NoStrangers(assets, albums) ==> StrangersListed(google, assets, albums, scraped)
  {}

  // With one asset per content, a key belongs to at most one asset.
  lemma SoundKeysUnique(google: map<string, Content>, assets: Assets, x: nat, y: nat, k: string)
    requires Sound(google, assets) && x in assets && y in assets && HasKey(assets[x], k) && HasKey(assets[y], k)
    ensures x == y
  {
    assert assets[x].content == google[k] == assets[y].content;
  }
}
