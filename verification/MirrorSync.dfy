// One run of the mirror (`Sync.run` and what it calls), every remote call of
// which may fail, and if it writes, may have taken effect in whole or in part
// before failing.

module MirrorSync {
  import opened MirrorConvergence
  import opened MirrorFinished
  import opened MirrorRuns
  import opened MirrorSafety
  import opened MirrorSteps
  import opened MirrorStore
  import opened Options

  const ATTEMPTS := 5

  class Sync {
    const google: map<string, Content>  // what each media key downloads

    const combinedName: string

    const reliable: bool  // every call is answered, and in time

    // Immich
    var assets: Assets
    var albums: Albums
    ghost var log: seq<Write>

    // the run's own dictionaries
    var ours: map<string, nat>
    var combined: nat
    var members: map<nat, set<nat>>
    var known: set<nat>          // every asset found in the managed albums
    var mine: set<nat>
    var byKey: map<string, nat>
    var desired: set<nat>
    var errors: nat
    var deferred: nat
    ghost var missed: nat                   // photos that failed or were left for later
    ghost var wants: map<string, set<nat>>  // what each album synced so far wants

    constructor (google: map<string, Content>, combinedName: string, reliable: bool, assets: Assets, albums: Albums)
      ensures this.google == google && this.reliable == reliable && this.assets == assets && this.albums == albums
      ensures Starting(Now()) && errors == deferred == 0
    {
      this.google, this.combinedName, this.reliable := google, combinedName, reliable;
      this.assets, this.albums, log := assets, albums, [];
      ours, combined, members, known, mine, byKey, desired := map[], 0, map[], {}, {}, map[], {};
      errors, deferred, missed, wants := 0, 0, 0, map[];
    }

    // ---- remote calls

    // Whether a call raises is up to the network and the server.
    method Answered() returns (ok: bool)
      ensures reliable ==> ok
    {
      ok := *;
      ok := ok || reliable;
    }

    // A POST whose answer is lost is sent again, so there can be more than one
    // new album.
    method CreateAlbum(name: string, marker: string) returns (ok: bool, id: nat)
      modifies `albums, `log
      ensures ok ==> id in albums && id !in old(albums)
      ensures forall i :: i in old(albums) ==> i in albums && albums[i] == old(albums)[i]
      ensures forall i :: i in albums && i !in old(albums) ==> albums[i] == Album(name, Some(marker), {})
      ensures Syncing(old(log), log)
      ensures reliable ==> ok && albums == old(albums)[id := Album(name, Some(marker), {})]
    {
      ok, id := false, 0;
      var attempts, again := 0, true;
      while !ok && again && attempts < ATTEMPTS
        invariant reliable && attempts > 0 ==> ok && albums == old(albums)[id := Album(name, Some(marker), {})]
        invariant attempts == 0 ==> again && albums == old(albums)
        invariant ok ==> id in albums && id !in old(albums)
        invariant forall i :: i in old(albums) ==> i in albums && albums[i] == old(albums)[i]
        invariant forall i :: i in albums && i !in old(albums) ==> albums[i] == Album(name, Some(marker), {})
        invariant Syncing(old(log), log)
        decreases ATTEMPTS - attempts
      {
        attempts := attempts + 1;
        ok := Answered();
        again := Answered();
        var applied := Answered();
        if ok || applied {
          id := FreshId(albums.Keys);
          albums := albums[id := Album(name, Some(marker), {})];
          log := log + [Write.CreateAlbum(id)];
        }
      }
    }

    method RenameAlbum(id: nat, name: string) returns (ok: bool)
      requires id in albums && albums[id].marker.Some?
      modifies `albums, `log
      ensures ok ==> albums == old(albums)[id := old(albums)[id].(name := name)]
      ensures albums == old(albums) || albums == old(albums)[id := old(albums)[id].(name := name)]
      ensures log == old(log) || log == old(log) + [Write.RenameAlbum(id)]
      ensures reliable ==> ok
    {
      ok := Answered();
      var applied := Answered();
      if ok || applied {
        albums := albums[id := albums[id].(name := name)];
        log := log + [Write.RenameAlbum(id)];
      }
    }

    method DeleteAlbum(id: nat) returns (ok: bool)
      requires id in albums
      modifies `albums, `log
      ensures ok ==> albums == old(albums) - {id}
      ensures (albums == old(albums) && log == old(log)) ||
              (albums == old(albums) - {id} && log == old(log) + [Write.DeleteAlbum(id, old(albums)[id].marker)])
      ensures reliable ==> ok
    {
      ok := Answered();
      var applied := Answered();
      if ok || applied {
        log := log + [Write.DeleteAlbum(id, albums[id].marker)];
        albums := albums - {id};
      }
    }

    // In chunks: after a failure some of the ids may be in.
    method AddToAlbum(id: nat, ids: set<nat>) returns (ok: bool)
      requires id in albums
      modifies `albums, `log
      ensures id in albums && albums == old(albums)[id := old(albums)[id].(members := albums[id].members)]
      ensures old(albums)[id].members <= albums[id].members <= old(albums)[id].members + ids
      ensures ok ==> albums[id].members == old(albums)[id].members + ids
      ensures exists part: set<nat> :: log == old(log) + [AddTo(id, part)]
      ensures reliable ==> ok
    {
      ok := Answered();
      var part: set<nat> := ids;
      if !ok {
        part := *;
        part := part * ids;
      }
      albums := albums[id := albums[id].(members := albums[id].members + part)];
      log := log + [AddTo(id, part)];
    }

    method RemoveFromAlbum(id: nat, ids: set<nat>) returns (ok: bool)
      requires id in albums
      modifies `albums, `log
      ensures id in albums && albums == old(albums)[id := old(albums)[id].(members := albums[id].members)]
      ensures old(albums)[id].members - ids <= albums[id].members <= old(albums)[id].members
      ensures ok ==> albums[id].members == old(albums)[id].members - ids
      ensures exists part: set<nat> :: part <= ids && log == old(log) + [RemoveFrom(id, old(albums)[id].marker, part)]
      ensures reliable ==> ok
    {
      ok := Answered();
      var part: set<nat> := ids;
      if !ok {
        part := *;
        part := part * ids;
      }
      log := log + [RemoveFrom(id, albums[id].marker, part)];
      albums := albums[id := albums[id].(members := albums[id].members - part)];
    }

    method RestoreAsset(id: nat) returns (ok: bool)
      requires id in assets
      modifies `assets, `log
      ensures assets == old(assets) || assets == old(assets)[id := old(assets)[id].(trashed := false)]
      ensures ok ==> assets == old(assets)[id := old(assets)[id].(trashed := false)]
      ensures log == old(log) || log == old(log) + [Restore(id)]
      ensures reliable ==> ok
    {
      ok := Answered();
      var applied := Answered();
      if ok || applied {
        assets := assets[id := assets[id].(trashed := false)];
        log := log + [Restore(id)];
      }
    }

    method SetMediaKeys(id: nat, keys: set<string>) returns (ok: bool)
      requires id in assets
      modifies `assets, `log
      ensures assets == old(assets) || assets == old(assets)[id := old(assets)[id].(keys := Some(keys))]
      ensures ok ==> assets == old(assets)[id := old(assets)[id].(keys := Some(keys))]
      ensures log == old(log) || log == old(log) + [SetKeys(id)]
      ensures reliable ==> ok
    {
      ok := Answered();
      var applied := Answered();
      if ok || applied {
        assets := assets[id := assets[id].(keys := Some(keys))];
        log := log + [SetKeys(id)];
      }
    }

    // An asset with this content already there is answered as a duplicate; so
    // is a new one when the first answer got lost and the request was repeated.
    method UploadAsset(content: Content, key: string) returns (ok: bool, id: nat, duplicate: bool)
      requires Sound(google, assets)
      modifies `assets, `log
      ensures (exists x: nat :: x in old(assets) && old(assets)[x].content == content) ==> assets == old(assets)
      ensures assets == old(assets) ||
              exists x: nat :: x !in old(assets) && assets == old(assets)[x := Asset(content, Some({key}), false)]
      ensures ok ==> id in assets && assets[id].content == content
      ensures ok && !duplicate ==> id !in old(assets) && assets == old(assets)[id := Asset(content, Some({key}), false)]
      ensures ok && id !in old(assets) ==> !assets[id].trashed
      ensures log == old(log) || exists x: nat :: log == old(log) + [Upload(x)]
      ensures reliable ==> ok
    {
      ok := Answered();
      if x :| x in assets && assets[x].content == content {
        id, duplicate := Holder(content), true;
        return;
      }
      var applied := Answered();
      var atOnce := Answered();
      duplicate := !atOnce;
      id := FreshId(assets.Keys);
      if ok || applied {
        assets := assets[id := Asset(content, Some({key}), false)];
        log := log + [Upload(id)];
      }
    }

    function Holder(content: Content): (x: nat)
      requires Sound(google, assets) && exists x :: x in assets && assets[x].content == content
      reads this
      ensures x in assets && assets[x].content == content
    {
      var x :| x in assets && assets[x].content == content;
      x
    }

    // In chunks: after a failure `part` of the ids may be in the trash.
    method TrashAssets(ids: set<nat>) returns (ok: bool, ghost part: set<nat>)
      requires ids <= assets.Keys
      modifies `assets, `log
      ensures part <= ids && (ok ==> part == ids) && log == old(log) + [Trash(part)] && (reliable ==> ok)
      ensures assets == map a | a in old(assets) :: if a in part then old(assets)[a].(trashed := true) else old(assets)[a]
    {
      ok := Answered();
      var chosen: set<nat> := ids;
      if !ok {
        chosen := *;
        chosen := chosen * ids;
      }
      part := chosen;
      assets := map a | a in assets :: if a in chosen then assets[a].(trashed := true) else assets[a];
      log := log + [Trash(chosen)];
    }

    // ---- import

    // An existing asset (same file) now also stands for this media key.
    method Adopt(id: nat, key: string, trashed: bool) returns (ok: bool)
      requires Sound(google, assets) && id in assets && key in google && assets[id].content == google[key]
      requires assets[id].trashed ==> trashed
      modifies `assets, `log
      ensures Grown(old(assets), assets) && Sound(google, assets) && assets.Keys == old(assets).Keys
      ensures ok ==> !assets[id].trashed && HasKey(assets[id], key)
      ensures Changed(old(assets), assets) <= {id} && (reliable ==> ok)
      ensures Syncing(old(log), log)
    {
      hide Sound, Grown;
      GrownSelf(assets);
      SoundRestored(google, assets, id);
      if trashed {
        ok := RestoreAsset(id);
        if !ok {
          return;
        }
      }
      ok := Answered();  // GET metadata
      if !ok {
        return;
      }
      var keys := if assets[id].keys.Some? then assets[id].keys.value else {};
      if key !in keys {
        SoundMoreKeys(google, assets, id, key);
        ghost var restored := assets;
        ok := SetMediaKeys(id, keys + {key});
        GrownTransitive(old(assets), restored, assets);
      }
    }

    method ImportPhoto(key: string) returns (ok: bool, id: nat)
      requires Sound(google, assets)
      modifies `assets, `log
      ensures Grown(old(assets), assets) && Sound(google, assets)
      ensures ok ==> id in assets && !assets[id].trashed && HasKey(assets[id], key)
      ensures ok ==> Changed(old(assets), assets) <= {id}
      ensures reliable && key in google ==> ok
      ensures Syncing(old(log), log)
    {
      hide Sound, Grown, Changed;
      GrownSelf(assets);
      id := 0;
      ok := Answered();  // the download
      if !ok || key !in google {
        return false, 0;
      }
      var content := google[key];
      ok := Answered();  // the duplicate check
      if !ok {
        return;
      }
      if x :| x in assets && assets[x].content == content {
        id := Holder(content);
        ok := Adopt(id, key, assets[id].trashed);
        return;
      }
      var duplicate;
      ok, id, duplicate := UploadAsset(content, key);
      ghost var uploaded := assets;
      if assets != old(assets) {
        ghost var x :| x !in old(assets) && assets == old(assets)[x := Asset(content, Some({key}), false)];
        SoundNewAsset(google, old(assets), x, key);
      }
      assert Changed(old(assets), uploaded) == {} by {
        NoneChanged(old(assets), uploaded);
      }
      if ok && duplicate {
        ok := Adopt(id, key, false);
        GrownTransitive(old(assets), uploaded, assets);
        ChangedBoth(old(assets), uploaded, assets);
      }
    }

    // ---- the phases of a run

    // All there is: Immich and the run's own variables.
    ghost function Now(): State
      reads this
    {
      State(assets, albums, log, ours, combined, members, known, mine, byKey, desired, errors, deferred, missed, wants)
    }

    // A photo not yet known; one that fails is an error and is skipped.
    method TryImport(key: string) returns (found: Option<nat>)
      requires Sound(google, assets) && Owned(Now()) && key !in byKey
      modifies `assets, `log, `mine, `byKey, `errors, `missed
      ensures Sound(google, assets) && Imported(old(Now()), Now()) && Asked(old(Now()), Now(), key, found)
      ensures reliable && key in google ==> missed == old(missed)
    {
      hide Sound, Grown, Imported, Owned, Changed, HasKey, Asked, Syncing;
      ghost var before := Now();
      var ok, id := ImportPhoto(key);
      if !ok {
        errors, missed := errors + 1, missed + 1;
        AskedInVain(before, Now(), key);
        return None;
      }
      byKey := byKey[key := id];
      mine := mine + {id};
      AskedNew(before, Now(), key, id);
      return Some(id);
    }

    // One photo of an album: known, left for the next run, or imported.
    method WantOne(key: string) returns (found: Option<nat>)
      requires Sound(google, assets) && Owned(Now())
      modifies `assets, `log, `mine, `byKey, `errors, `deferred, `missed
      ensures Sound(google, assets) && Imported(old(Now()), Now()) && Asked(old(Now()), Now(), key, found)
      ensures reliable && key in google ==> missed == old(missed)
    {
      hide Sound, Grown, Imported, Owned, Changed, HasKey, Asked, Syncing;
      ghost var before := Now();
      if key in byKey {
        AskedKnown(before, key);
        return Some(byKey[key]);
      }
      var inTime := Answered();
      if !inTime {
        deferred, missed := deferred + 1, missed + 1;
        GrownSelf(assets);
        SyncingSelf(log);
        AskedInVain(before, Now(), key);
        return None;
      }
      found := TryImport(key);
    }

    // The import loop of one album.
    method CollectWant(photos: seq<string>) returns (want: set<nat>)
      requires Sound(google, assets) && Owned(Now())
      modifies `assets, `log, `mine, `byKey, `errors, `deferred, `missed
      ensures Sound(google, assets) && Imported(old(Now()), Now())
      ensures Collected(old(Now()), Now(), photos, want)
      ensures (forall k :: k in photos ==> k in old(byKey)) ==>
                Now() == old(Now()) && want == Known(old(byKey), photos)
      ensures reliable && PhotoSet(photos) <= google.Keys ==> missed == old(missed)
    {
      hide Sound, Grown, Imported, Owned, Collected, Known, Changed, Asked;
      CollectedNone(Now());
      ImportedSelf(Now());
      want := {};
      for p: nat := 0 to |photos|
        invariant Sound(google, assets) && Imported(old(Now()), Now())
        invariant Collected(old(Now()), Now(), photos[..p], want)
        invariant reliable && PhotoSet(photos) <= google.Keys ==> missed == old(missed)
        invariant (forall k :: k in photos ==> k in old(byKey)) ==>
                    Now() == old(Now()) && want == Known(old(byKey), photos[..p])
      {
        assert photos[..p + 1] == photos[..p] + [photos[p]];
        ghost var before := Now();
        ghost var wanted := want;
        OwnedOf(old(Now()), before);
        var found := WantOne(photos[p]);
        ImportedTransitive(old(Now()), before, Now());
        if found.Some? {
          want := want + {found.value};
        }
        CollectedStep(old(Now()), before, Now(), photos[..p], photos[p], wanted, found);
        if photos[p] in before.byKey {
          AskedKey(before, Now(), photos[p], found);
        }
        if photos[p] in old(byKey) {
          KnownStep(old(byKey), photos[..p], photos[p]);
        }
      }
      assert photos[..|photos|] == photos;
    }

    // The album of a listed source, created or renamed when needed.
    method FindAlbum(source: Source) returns (ok: bool, id: nat)
      requires Linked(Now()) && source.sid != COMBINED
      modifies `albums, `log, `ours, `members
      ensures Looked(old(Now()), Now(), source)
      ensures ok ==> Linked(Now()) && Found(old(Now()), Now(), source, id)
      ensures source.sid in old(ours) && old(albums)[old(ours)[source.sid]].name == source.title ==>
                (ok && id == old(ours)[source.sid] && Now() == old(Now()))
      ensures reliable ==> ok
      ensures reliable && source.sid !in old(ours) ==> albums == old(albums)[id := Album(source.title, Some(source.sid), {})]
    {
      hide Looked, Found, Linked;
      LinkedOurs(Now(), source.sid);
      if source.sid in ours {
        id, ok := ours[source.sid], true;
        if albums[id].name != source.title {
          ok := RenameAlbum(id, source.title);
        }
        RenamedAlbum(old(Now()), Now(), source, id);
      } else {
        ok, id := CreateAlbum(source.title, source.sid);
        if ok {
          ours := ours[source.sid := id];
          members := members[id := {}];
        }
        CreatedAlbum(old(Now()), Now(), source, id, ok);
      }
    }

    method ApplyAlbum(id: nat, add: set<nat>, remove: set<nat>) returns (ok: bool)
      requires id in albums
      modifies `albums, `log
      ensures id in albums && albums == old(albums)[id := old(albums)[id].(members := albums[id].members)]
      ensures old(albums)[id].members - remove <= albums[id].members <= old(albums)[id].members + add
      ensures ok ==> albums[id].members == old(albums)[id].members + add - remove
      ensures Syncing(old(log), log)
      ensures add == {} && remove == {} ==> ok && Now() == old(Now())
      ensures reliable ==> ok
    {
      ok := true;
      if add != {} {
        ok := AddToAlbum(id, add);
        if !ok {
          return;
        }
      }
      if remove != {} {
        ok := RemoveFromAlbum(id, remove);
      }
    }

    // The plan of one album carried out, and its dictionary entry updated.
    method ApplyPlan(ghost sid: string, id: nat, want: set<nat>) returns (ok: bool)
      requires id in albums && id in members
      modifies `albums, `log, `members, `desired, `wants
      ensures AppliedTo(old(Now()), Now(), sid, id, want, ok)
      ensures old(members)[id] == want ==>
                ok && Now() == old(Now()).(desired := old(desired) + want, wants := old(wants)[sid := want])
      ensures reliable ==> ok
    {
      var (add, remove) := PlanAlbum(want, members[id], mine);
      ok := ApplyAlbum(id, add, remove);
      if members[id] == want {
        assert add == {} && remove == {} && want - remove + add == want;
        assert members[id := want] == members;
      }
      if ok {
        members := members[id := members[id] - remove + add];
        desired := desired + want;
        wants := wants[sid := want];
      }
    }

    // One listed album.
    method SyncAlbum(source: Source) returns (ok: bool, ghost want: set<nat>)
      requires Sound(google, assets) && Linked(Now()) && Owned(Now()) && source.sid != COMBINED
      modifies this
      ensures Sound(google, assets) && Stepped(old(Now()), Now(), {source.sid}) && LosesUnwanted(old(Now()), Now(), source)
      ensures ok ==> Linked(Now()) && Owned(Now()) && Synced(old(Now()), Now(), source, want)
      ensures InSync(old(Now()), source) ==>
                && ok && want == Known(old(byKey), source.photos)
                && Now() == old(Now()).(desired := old(desired) + want, wants := old(wants)[source.sid := want])
      ensures reliable ==> ok && (OneEach(old(Now())) ==> OneEach(Now()))
      ensures reliable && PhotoSet(source.photos) <= google.Keys ==> missed == old(missed)
    {
      hide Sound, Grown, Imported, Linked, Owned, Found, Looked, Collected, Known, Stepped, Synced, AppliedTo, LosesUnwanted, OneEach;
      want := {};
      ghost var start := Now();
      var id;
      ok, id := FindAlbum(source);
      ghost var found := Now();
      if !ok {
        LookedSteps(start, found, source);
        LooksOnly(start, found, source);
        return;
      }
      OwnedFrame(start, found, source);
      if reliable && OneEach(start) {
        OneEachFound(start, found, source, id);
      }
      var wanted := CollectWant(source.photos);
      want := wanted;
      ghost var collected := Now();
      FoundFacts(start, found, collected, source, id);
      ok := ApplyPlan(source.sid, id, wanted);
      ghost var done := Now();
      AppliedSteps(start, found, collected, done, source, id, wanted, ok);
      AppliedLoses(start, found, collected, done, source, id, wanted, ok);
      AppliedAlike(found, collected, done, source.sid, id, wanted, ok);
      if ok {
        AppliedLinked(collected, done, source.sid, id, wanted);
        AppliedSynced(start, found, collected, done, source, id, wanted);
      }
    }

    // The import loop over the listed albums.
    method SyncListed(scraped: seq<Source>) returns (ok: bool)
      requires Sound(google, assets) && Linked(Now()) && Owned(Now()) && desired == {} && wants == map[]
      requires Distinct(scraped) && forall d :: d in scraped ==> d.sid != COMBINED
      modifies this
      ensures Sound(google, assets) && Stepped(old(Now()), Now(), Sids(scraped)) && KeepsListed(old(Now()), Now(), scraped)
      ensures ok ==> Progress(old(Now()), Now(), scraped)
      ensures (forall d :: d in scraped ==> InSync(old(Now()), d)) ==>
                ok && Now() == old(Now()).(desired := KnownAll(old(byKey), scraped), wants := wants)
      ensures reliable ==> ok && (OneEach(old(Now())) ==> OneEach(Now()))
      ensures reliable && AllPhotos(scraped) <= google.Keys ==> missed == old(missed)
    {
      hide Sound, Linked, Owned, Stepped, Synced, Progress, InSync, KnownAll, KeepsListed, LosesUnwanted, OneEach, Distinct, AllPhotos,
        PhotoSet, Sids;
      ok := true;
      ghost var r := Now();
      NoProgress(r);
      KnownAllNone(byKey);
      NoSteps(r, Sids([]));
      KeepsSelf(r, scraped);
      for p: nat := 0 to |scraped|
        invariant ok && Sound(google, assets) && Stepped(r, Now(), Sids(scraped[..p])) && KeepsListed(r, Now(), scraped)
        invariant Progress(r, Now(), scraped[..p])
        invariant (forall d :: d in scraped ==> InSync(r, d)) ==>
                    Now() == r.(desired := KnownAll(r.byKey, scraped[..p]), wants := wants)
        invariant reliable && OneEach(r) ==> OneEach(Now())
        invariant reliable && AllPhotos(scraped) <= google.Keys ==> missed == r.missed
      {
        ghost var done := scraped[..p];
        assert scraped[..p + 1] == done + [scraped[p]];
        ghost var before := Now();
        ProgressFacts(r, before, done);
        ghost var want;
        if forall d :: d in scraped ==> InSync(r, d) {
          InSyncFrame(r, scraped[p], desired, wants);
        }
        PhotosWithin(scraped, scraped[p]);
        DistinctAt(scraped, p);
        ok, want := SyncAlbum(scraped[p]);
        SidsStep(done, scraped[p]);
        SteppedTransitive(r, before, Now(), Sids(done), {scraped[p].sid});
        KeepsStep(r, before, Now(), done, scraped[p], scraped);
        KnownAllStep(r.byKey, done, scraped[p]);
        if !ok {
          SidsWithin(scraped, p + 1);
          SteppedMore(r, Now(), Sids(scraped[..p + 1]), Sids(scraped));
          return;
        }
        ProgressStep(r, before, Now(), done, scraped[p], want);
      }
      assert scraped[..|scraped|] == scraped;
    }

    // The active list items; every item that cannot be read is an error, and so
    // may be tidying the item of one that can.
    method ReadList(readings: seq<Reading>) returns (scraped: seq<Source>, complete: bool)
      modifies `errors
      ensures scraped == Scraped(readings) && Distinct(scraped)
      ensures complete <==> Complete(readings)
      ensures errors >= old(errors) && (reliable && complete ==> errors == old(errors))
    {
      hide Scraped, Sids;
      ScrapedNone();
      scraped, complete := [], true;
      for r: nat := 0 to |readings|
        invariant scraped == Scraped(readings[..r])
        invariant Distinct(scraped)
        invariant complete <==> Complete(readings[..r])
        invariant errors >= old(errors) && (reliable && complete ==> errors == old(errors))
      {
        ScrapedStep(readings[..r], readings[r]);
        assert readings[..r + 1] == readings[..r] + [readings[r]];
        SidsHold(scraped);
        assert readings[r] in readings[..r + 1];
        if readings[r].Failed? {
          errors, complete := errors + 1, false;
        } else if readings[r].sid !in Sids(scraped) {
          scraped := scraped + [Source(readings[r].sid, readings[r].title, readings[r].photos)];
          var tidied := Answered();
          if !tidied {
            errors := errors + 1;
          }
        }
      }
      assert readings[..|readings|] == readings;
    }

    // Ours and the first combined album, by their markers.
    method ScanAlbums() returns (found: bool)
      modifies `ours, `combined
      ensures MarkersRead(Now(), Now())
      ensures found ==> combined in albums && albums[combined].marker == Some(COMBINED)
      ensures !found ==> forall i :: i in albums ==> albums[i].marker != Some(COMBINED)
    {
      ours := map[];
      found := false;
      var rest := albums.Keys;
      while rest != {}
        invariant rest <= albums.Keys
        invariant forall m :: m in ours ==> m != COMBINED && ours[m] in albums && albums[ours[m]].marker == Some(m)
        invariant forall i :: i in albums && i !in rest && albums[i].marker.Some? ==>
                    albums[i].marker.value == COMBINED || albums[i].marker.value in ours
        invariant found ==> combined in albums && albums[combined].marker == Some(COMBINED)
        invariant forall i :: i in albums && i !in rest && albums[i].marker == Some(COMBINED) ==> found
        decreases rest
      {
        var i :| i in rest;
        rest := rest - {i};
        if albums[i].marker == Some(COMBINED) {
          if !found {
            combined, found := i, true;
          }
        } else if albums[i].marker.Some? {
          ours := ours[albums[i].marker.value := i];
        }
      }
    }

    method FindAlbums() returns (ok: bool)
      modifies `albums, `log, `ours, `combined
      ensures OnlyCombinedNew(old(Now()), Now()) && MarkersRead(old(Now()), Now())
      ensures ok ==> CombinedFound(Now())
      ensures reliable ==> ok && (old(UniqueMarkers(albums)) ==> UniqueMarkers(albums))
    {
      ok := Answered();
      var found := ScanAlbums();
      if ok && !found {
        ok, combined := CreateAlbum(combinedName, COMBINED);
      }
    }

    // The visible assets of our albums.
    method ReadMembers() returns (ok: bool)
      requires combined in albums && forall m :: m in ours ==> ours[m] in albums
      modifies `members, `known
      ensures ok ==> MembersRead(Now())
      ensures reliable ==> ok
    {
      members, known, ok := map[], {}, true;
      var rest := ours.Values + {combined};
      while rest != {}
        invariant ok && rest <= ours.Values + {combined} && members.Keys == ours.Values + {combined} - rest
        invariant forall i :: i in members ==> i in albums && members[i] == Visible(assets, albums[i].members)
        invariant forall i :: i in members ==> members[i] <= known
        invariant forall a :: a in known ==> exists i :: i in members && a in members[i]
        decreases rest
      {
        var i :| i in rest;
        ok := Answered();
        if !ok {
          return;
        }
        ghost var before := members;
        rest := rest - {i};
        members := members[i := Visible(assets, albums[i].members)];
        forall a | a in known ensures exists j :: j in members && a in members[j] {
          var j :| j in before && a in before[j];
          assert j in members && a in members[j];
        }
        known := known + members[i];
      }
    }

    // The metadata of every asset in them.
    method ReadKeys() returns (ok: bool)
      requires known <= assets.Keys
      modifies `mine, `byKey
      ensures ok ==> KeysRead(Now())
      ensures reliable ==> ok
    {
      mine, byKey, ok := {}, map[], true;
      var rest := known;
      while rest != {}
        invariant ok && rest <= known
        invariant forall a :: a in mine <==> a in known - rest && assets[a].keys.Some?
        invariant forall k :: k in byKey ==> byKey[k] in mine && HasKey(assets[byKey[k]], k)
        invariant forall a, k :: a in mine && HasKey(assets[a], k) ==> k in byKey
        decreases rest
      {
        var a :| a in rest;
        ok := Answered();
        if !ok {
          return;
        }
        rest := rest - {a};
        if assets[a].keys.Some? {
          mine := mine + {a};
          byKey := byKey + map k | k in assets[a].keys.value :: a;
        }
      }
    }

    method ReadImmich() returns (ok: bool)
      modifies `albums, `log, `ours, `combined, `members, `known, `mine, `byKey
      ensures OnlyCombinedNew(old(Now()), Now())
      ensures ok ==> ReadOf(old(Now()), Now())
      ensures reliable ==> ok && (old(UniqueMarkers(albums)) ==> UniqueMarkers(albums))
    {
      hide OnlyCombinedNew, ReadOf, KeysRead, UniqueMarkers, MembersRead, MarkersRead, CombinedFound;
      ghost var s := Now();
      ok := FindAlbums();
      ghost var f := Now();
      if !ok {
        return;
      }
      AlbumsFound(s, f);
      ok := ReadMembers();
      ghost var m := Now();
      OnlyCombinedFrame(s, f, m);
      if !ok {
        return;
      }
      KnownStored(m);
      ok := ReadKeys();
      OnlyCombinedFrame(s, f, Now());
      if ok {
        ReadWhole(s, f, m, Now());
      }
    }

    // The combined album: whatever any listed album wants.
    method SyncCombined(complete: bool) returns (ok: bool)
      requires Linked(Now()) && Owned(Now()) && desired <= mine
      modifies `albums, `log
      ensures Stepped(old(Now()), Now(), {COMBINED}) && OnlyCombinedTouched(old(Now()), Now())
      ensures !complete ==> old(albums)[combined].members <= albums[combined].members
      ensures forall a :: a in old(albums)[combined].members && a !in albums[combined].members ==>
                a in members[combined] && a !in desired
      ensures ok ==> desired <= albums[combined].members
      ensures ok && complete ==>
                albums[combined].members == AfterPlan(old(albums)[combined].members, members[combined], mine, desired)
      ensures desired == members[combined] ==> ok && Now() == old(Now())
      ensures reliable ==> ok
    {
      var (add, remove) := PlanAlbum(desired, members[combined], mine);
      if !complete {
        remove := {};
      }
      ok := ApplyAlbum(combined, add, remove);
      CombinedSteps(old(Now()), Now());
    }

    // Our albums that are no longer listed.
    method DeleteDropped(sids: set<string>) returns (ok: bool)
      requires OursMarked(Now())
      modifies `albums, `log
      ensures Dropped(old(Now()), Now(), sids)
      ensures ok ==> forall m :: m in ours && m !in sids ==> ours[m] !in albums
      ensures ours.Keys <= sids ==> ok && Now() == old(Now())
      ensures reliable ==> ok
    {
      ok := true;
      var rest := ours.Keys - sids;
      while rest != {}
        invariant ok && rest <= ours.Keys - sids
        invariant Dropped(old(Now()), Now(), sids)
        invariant forall m :: m in ours && m !in sids && m !in rest ==> ours[m] !in albums
        invariant forall m :: m in rest ==> ours[m] in albums
        invariant ours.Keys <= sids ==> Now() == old(Now())
        decreases rest
      {
        var m :| m in rest;
        rest := rest - {m};
        ghost var before := Now();
        ok := DeleteAlbum(ours[m]);
        DroppedStep(old(Now()), before, Now(), sids, m);
        if !ok {
          return;
        }
      }
    }

    // What no listed album wants, in no album of someone else's.
    method FindOrphans() returns (ok: bool, orphans: set<nat>)
      ensures ok ==> forall a :: a in orphans <==> Orphan(Now(), a)
      ensures reliable ==> ok
    {
      orphans := mine - desired;
      ok := Answered();  // the search
      if !ok {
        return;
      }
      var found := set a | a in assets && !assets[a].trashed && forall i :: i in albums ==> a !in albums[i].members;
      assert forall a :: a in found <==> Unalbumed(assets, albums, a);
      var rest := found;
      while rest != {}
        invariant ok && rest <= found
        invariant forall a :: a in orphans <==>
                    a in mine - desired || (a in found - rest && a !in desired && a !in known && assets[a].keys.Some?)
        decreases rest
      {
        var a :| a in rest;
        rest := rest - {a};
        if a !in desired && a !in known {
          ok := Answered();  // the metadata
          if !ok {
            return;
          }
          if assets[a].keys.Some? {
            orphans := orphans + {a};
          }
        }
      }
      ghost var all := orphans;
      rest := orphans;
      var keep: set<nat> := {};
      while rest != {}
        invariant ok && rest <= orphans == all && keep <= orphans - rest
        invariant forall a :: a in orphans - rest ==> (a in keep <==> Foreign(albums, a))
        decreases rest
      {
        var a :| a in rest;
        rest := rest - {a};
        ok := Answered();  // the albums with the asset
        if !ok {
          return;
        }
        if exists i :: i in albums && albums[i].marker == None && a in albums[i].members {
          keep := keep + {a};
        }
      }
      orphans := orphans - keep;
    }

    // The listed albums, then the combined one.
    method SyncAll(scraped: seq<Source>, complete: bool) returns (ok: bool, ghost l: State)
      requires Sound(google, assets) && Linked(Now()) && Owned(Now()) && desired == {} && wants == map[]
      requires Distinct(scraped) && COMBINED !in Sids(scraped)
      modifies this
      ensures Sound(google, assets) && Stepped(old(Now()), Now(), Sids(scraped) + {COMBINED}) && KeepsListed(old(Now()), Now(), scraped)
      ensures forall i :: i in albums && i !in old(albums) ==> albums[i].marker != Some(COMBINED)
      ensures !complete ==> CombinedKept(old(Now()), Now())
      ensures ok ==> Gathered(old(Now()), l, Now(), scraped, complete)
      ensures AllInSync(old(Now()), scraped) ==>
                ok && Now() == old(Now()).(desired := KnownAll(old(byKey), scraped), wants := wants)
      ensures reliable ==> ok && (OneEach(old(Now())) ==> UniqueMarkers(albums))
      ensures reliable && AllPhotos(scraped) <= google.Keys ==> missed == old(missed)
    {
      hide Sound, Linked, Owned, Stepped, InSync, KnownAll, Progress, CombinedKept, KeepsListed, OneEach, UniqueMarkers, AllPhotos,
        Distinct, Hidden, OnlyCombinedTouched;
      ghost var r := Now();
      SidsInclude(scraped);
      ok := SyncListed(scraped);
      l := Now();
      ListedKeepsCombined(r, l, Sids(scraped));
      SteppedMore(r, l, Sids(scraped), Sids(scraped) + {COMBINED});
      NoneNewCombined(r, l, Sids(scraped));
      if reliable && OneEach(r) {
        OneEachUnique(l);
      }
      if !ok {
        return;
      }
      ProgressWants(r, l, scraped);
      ok := SyncCombined(complete);
      CombinedTouched(l, Now());
      KeepsCombined(r, l, Now(), scraped);
      SteppedTransitive(r, l, Now(), Sids(scraped), {COMBINED});
      if !complete {
        CombinedGrew(l, Now());
        CombinedKeptTransitive(r, l, Now(), Sids(scraped));
      }
    }

    // Dropped albums and orphans go.
    method CleanUp(sids: set<string>) returns (ok: bool, ghost d: State, ghost part: set<nat>)
      requires OursMarked(Now()) && Owned(Now())
      modifies `albums, `assets, `log
      ensures Dropped(old(Now()), d, sids)
      ensures forall a :: a in part ==> Orphan(d, a)
      ensures (Now() == d && part == {}) || TrashedPart(d, Now(), part)
      ensures ok ==> && (forall m :: m in d.ours && m !in sids ==> d.ours[m] !in d.albums)
                     && (forall a :: Orphan(d, a) ==> a in part)
      ensures ours.Keys <= sids && (forall a :: !Orphan(old(Now()), a)) ==> Now() == old(Now())
      ensures reliable ==> ok
    {
      part := {};
      ok := DeleteDropped(sids);
      d := Now();
      if !ok {
        return;
      }
      var orphans;
      ok, orphans := FindOrphans();
      if !ok {
        return;
      }
      OrphansStored(old(Now()), d, sids);
      if orphans != {} {
        ok, part := TrashAssets(orphans);
      }
    }

    // A run up to the point where it may delete.
    method SyncRead(readings: seq<Reading>)
      returns (ok: bool, scraped: seq<Source>, complete: bool, ghost s: State, ghost r: State, ghost l: State)
      requires Starting(Now()) && Sound(google, assets)
      requires forall r :: r in readings && r.Got? ==> r.sid != COMBINED
      modifies this
      ensures scraped == Scraped(readings) && (complete <==> Complete(readings))
      ensures s.assets == old(assets) && s.albums == old(albums)
      ensures Sound(google, assets) && Safe(old(Now()), Now(), readings)
      ensures ok ==> ReadyToDelete(google, s, r, l, Now(), readings)
      ensures complete && old(Mirrored(google, assets, albums, Scraped(readings))) ==>
                && log == [] && assets == old(assets) && albums == old(albums) && deferred == old(deferred)
                && (ok ==> ours.Keys <= Sids(scraped) && forall a :: !Orphan(Now(), a))
      ensures reliable ==> ok && (old(UniqueMarkers(albums)) ==> UniqueMarkers(albums))
      ensures reliable && AllPhotos(scraped) <= google.Keys ==>
                missed == 0 && (complete ==> errors == old(errors)) && deferred == old(deferred)
    {
      hide Sound, Safe, Calm, Linked, Owned, Stepped, InSync, AllInSync, KnownAll, CombinedKept, Gathered, OnlyCombinedNew, ReadOf,
        Mirrored, UniqueMarkers, Scraped, Sids, Complete, Orphan, KeepsListed, OneEach, Distinct, AllPhotos, ReadyToDelete;
      scraped, complete := ReadList(readings);
      ScrapedSids(readings);
      s := Now();
      StartingFrame(old(Now()), s);
      ok := ReadImmich();
      r, l := Now(), Now();
      ReadSafely(old(Now()), s, r, readings);
      if complete && Mirrored(google, s.assets, s.albums, scraped) {
        SettledAlbums(google, s, r, scraped);
      }
      if !ok {
        return;
      }
      ReadOwned(s, r);
      ReadFacts(s, r);
      if complete && Mirrored(google, s.assets, s.albums, scraped) {
        Settled(google, s, r, scraped);
      }
      ok, l := SyncAll(scraped, complete);
      SyncedSafely(google, old(Now()), s, r, Now(), readings);
      if !ok {
        return;
      }
      SyncedReady(google, s, r, l, Now(), readings);
      if complete && Mirrored(google, s.assets, s.albums, scraped) {
        NoOrphans(google, s, r, Now(), scraped);
      }
    }

    // The exit code: 2 is an aborted run, 1 one with errors.
    method Run(readings: seq<Reading>) returns (code: nat)
      requires Starting(Now()) && Sound(google, assets)
      requires forall r :: r in readings && r.Got? ==> r.sid != COMBINED
      modifies this
      ensures Sound(google, assets) && Safe(old(Now()), Now(), readings)
      ensures code <= 2 && (code == 0 ==> errors == 0 && Complete(readings)) && (code == 1 ==> errors > 0)
      ensures code != 2 && old(UniqueMarkers(albums)) ==>
                Finished(google, old(Now()), Now(), Scraped(readings), Complete(readings))
      ensures code != 2 && missed == 0 && old(UniqueMarkers(albums)) ==>
                ExactLoss(google, old(Now()), Now(), Scraped(readings))
      ensures code == 0 && deferred == 0 && old(UniqueMarkers(albums) && MembersStored(assets, albums)) && UniqueMarkers(albums) ==>
                && (Mirrored(google, assets, albums, Scraped(readings)) <==>
                      old(NoRevival(google, assets, albums, Scraped(readings)) && StrangersListed(google, assets, albums, Scraped(readings))))
                && MembersStored(assets, albums) && NoneWaiting(google, assets, Scraped(readings))
                && StrangersWere(google, old(Now()), Now(), Scraped(readings))
      ensures Complete(readings) && old(Mirrored(google, assets, albums, Scraped(readings))) ==>
                log == [] && assets == old(assets) && albums == old(albums) && deferred == old(deferred)
      ensures reliable ==> code != 2 && (old(UniqueMarkers(albums)) ==> UniqueMarkers(albums))
      ensures reliable && AllPhotos(Scraped(readings)) <= google.Keys ==>
                missed == 0 && (Complete(readings) && old(errors == deferred == 0) ==> code == 0 && deferred == 0)
    {
      hide Sound, Safe, Mirrored, UniqueMarkers, MembersStored, Scraped, Sids, Complete, Orphan, NoRevival, NoneWaiting, ExactLoss,
        StrangersListed, StrangersWere, Finished,
        AllPhotos, OursMarked, Owned, ReadyToDelete, Dropped, TrashedPart;
      ghost var first := Now();
      ghost var s, r, l;
      var ok, scraped, complete;
      ok, scraped, complete, s, r, l := SyncRead(readings);
      ghost var c := Now();
      if !ok {
        return 2;
      }
      if !complete {
        errors := errors + 1;
        EndedIncomplete(google, first, s, r, l, c, Now(), readings);
        if UniqueMarkers(first.albums) {
          FinishedIncomplete(google, first, s, r, l, c, Now(), readings);
        }
        return 1;
      }
      ReadyFacts(google, s, r, l, c, readings);
      ghost var d, part;
      ok, d, part := CleanUp(Sids(scraped));
      CleanedUp(google, first, s, r, l, c, d, Now(), part, readings);
      if !ok {
        return 2;
      }
      if UniqueMarkers(first.albums) {
        FinishedClean(google, first, s, r, l, c, d, Now(), part, readings);
      }
      if errors == 0 && deferred == 0 && UniqueMarkers(first.albums) && MembersStored(first.assets, first.albums) &&
         UniqueMarkers(albums) {
        CleanedConverged(google, first, s, r, l, c, d, Now(), part, readings);
      }
      return if errors > 0 then 1 else 0;
    }
  }

  // Two runs on the same list, the second starting where the first one ended.
  // The second has nothing to do if the first one left the mirrored state; if it
  // did not, the second does, unless strangers stay that are listed nowhere.
  method RunTwice(google: map<string, Content>, name: string, reliable: bool, assets: Assets, albums: Albums, readings: seq<Reading>)
    returns (first: Sync, code: nat, second: Sync, again: nat)
    requires Sound(google, assets) && UniqueMarkers(albums) && MembersStored(assets, albums)
    requires forall r :: r in readings && r.Got? ==> r.sid != COMBINED
    ensures fresh(first) && fresh(second)
    ensures var scraped := Scraped(readings);
            code == 0 && first.deferred == 0 && UniqueMarkers(first.albums) ==>
              && (Mirrored(google, first.assets, first.albums, scraped) <==>
                    NoRevival(google, assets, albums, scraped) && StrangersListed(google, assets, albums, scraped))
              && (Mirrored(google, first.assets, first.albums, scraped) ==>
                    second.log == [] && second.assets == first.assets && second.albums == first.albums)
              && (again == 0 && second.deferred == 0 && UniqueMarkers(second.albums) &&
                  EveryStrangerListed(google, assets, albums, scraped) ==>
                    && Mirrored(google, second.assets, second.albums, scraped)
                    && (!Mirrored(google, first.assets, first.albums, scraped) ==>
                          second.assets != first.assets || second.albums != first.albums))
    ensures reliable && AllPhotos(Scraped(readings)) <= google.Keys && Complete(readings) ==>
              && code == again == 0 && first.deferred == second.deferred == 0
              && UniqueMarkers(first.albums) && UniqueMarkers(second.albums)
  {
    hide Sound, UniqueMarkers, MembersStored, Mirrored, Safe, Scraped, AllPhotos, Complete, NoRevival, NoneWaiting, ExactLoss,
      StrangersListed, StrangersWere, EveryStrangerListed, NoStrangers, Finished;
    first := new Sync(google, name, reliable, assets, albums);
    ghost var start := first.Now();
    code := first.Run(readings);
    second := new Sync(google, name, reliable, first.assets, first.albums);
    again := second.Run(readings);
    if StrangersWere(google, start, first.Now(), Scraped(readings)) && EveryStrangerListed(google, assets, albums, Scraped(readings)) {
      StrangersAdopted(google, start, first.Now(), Scraped(readings));
    }
    NothingToSettle(google, first.assets, first.albums, Scraped(readings));
  }

  // Incomplete runs do remove: the list has an album that cannot be read and
  // "Trip", which now holds photo j alone, and "Trip" loses photo k.
  method IncompleteRunRemoves(run: Sync, readings: seq<Reading>) returns (code: nat)
    requires Starting(run.Now()) && run.reliable && run.google == map["k" := [0], "j" := [1]]
    requires run.assets == map[0 := Asset([0], Some({"k"}), false)]
    requires run.albums == map[1 := Album("Trip", Some("aa"), {0}), 2 := Album("Google Photos", Some(COMBINED), {0})]
    requires readings == [Failed, Got("aa", "Trip", ["j"])]
    modifies run
    ensures code == 1 && 1 in run.albums && 0 !in run.albums[1].members
  {
    ghost var before := run.Now();
    TwoReadings(readings[0], readings[1]);
    ghost var trip := Source("aa", "Trip", ["j"]);
    assert readings == [readings[0], readings[1]];
    assert "aa" != COMBINED;
    assert Failed in readings;
    assert AllPhotos([trip]) <= run.google.Keys;
    code := run.Run(readings);
    assert OwnMember(before, trip.sid, 1, 0);
    assert StaysIffListed(run.google, before, run.Now(), trip, 1, 0);
  }

  // What a run leaves for the next: "A" holds photo k, in the trash or put there
  // by someone else, and k is listed for "B" alone. After a first run that exits 0
  // with nothing deferred the second takes k out of "A".
  method SecondRunNeeded(google: map<string, Content>, x: Asset, assets: Assets, albums: Albums, readings: seq<Reading>)
    returns (first: Sync, code: nat, second: Sync)
    requires x == Asset([0], Some({"k"}), true) || x == Asset([0], None, false)
    requires google == map["k" := [0], "j" := [1]] && assets == map[0 := x, 1 := Asset([1], Some({"j"}), false)]
    requires albums == map[1 := Album("A", Some("aa"), {0, 1}), 2 := Album("B", Some("bb"), {}),
                           3 := Album("Google Photos", Some(COMBINED), {1})]
    requires readings == [Got("aa", "A", ["j"]), Got("bb", "B", ["k"])]
    ensures fresh(first) && fresh(second) && code == 0 && first.deferred == 0
    ensures !Mirrored(google, first.assets, first.albums, Scraped(readings))
    ensures Mirrored(google, second.assets, second.albums, Scraped(readings))
    ensures second.assets != first.assets || second.albums != first.albums
  {
    NotMirroredInput(google, x, assets, albums, readings);
    hide Sound, Mirrored, UniqueMarkers, MembersStored, Scraped, AllPhotos, NoRevival, EveryStrangerListed, StrangersListed;
    var again;
    first, code, second, again := RunTwice(google, "Google Photos", true, assets, albums, readings);
  }

  method FreshId(used: set<nat>) returns (id: nat)
    ensures id !in used
  {
    id := 0;
    var rest := used;
    while id in used
      invariant rest <= used && forall x :: x in used ==> x < id || x in rest
      invariant forall x :: x in rest ==> x >= id
      decreases rest
    {
      rest := rest - {id};
      id := id + 1;
    }
  }
}
