// Reading a Google album page by page (`fetch_album`): any doubt raises, so that
// what is returned is the whole album.

module Pagination {
  import opened Options

  datatype Photo = Photo(key: string, taken: int)

  // A page's items: videos are told apart first, any other item must parse.
  datatype Item = Video | Malformed | Good(photo: Photo)

  datatype Response = Failure | Page(items: seq<Item>, next: Option<string>)

  datatype Result = Raised | Album(photos: seq<Photo>, videos: nat)

  const MAX_PAGES := 200

  // ---- what an album is

  predicate Readable(r: Response) {
    r.Page? && Malformed !in r.items
  }

  // The items of the first `n` pages; `pages(i)` answers request number i.
  function ItemsOf(pages: nat -> Response, n: nat): seq<Item> {
    if n == 0 then [] else ItemsOf(pages, n - 1) + (if pages(n - 1).Page? then pages(n - 1).items else [])
  }

  function PhotosIn(items: seq<Item>): seq<Photo> {
    if items == [] then []
    else PhotosIn(items[..|items| - 1]) + (if items[|items| - 1].Good? then [items[|items| - 1].photo] else [])
  }

  function Videos(items: seq<Item>): nat {
    if items == [] then 0 else Videos(items[..|items| - 1]) + if items[|items| - 1].Video? then 1 else 0
  }

  function Keys(photos: seq<Photo>): set<string> {
    set p | p in photos :: p.key
  }

  // One photo a key, the first one.
  function Deduplicated(photos: seq<Photo>): seq<Photo> {
    if photos == [] then []
    else
      var before, p := Deduplicated(photos[..|photos| - 1]), photos[|photos| - 1];
      if p.key in Keys(photos[..|photos| - 1]) then before else before + [p]
  }

  // Page `p` is the album's last: the first without a token, all pages up to it
  // readable, no token seen twice.
  ghost predicate LastPage(pages: nat -> Response, p: nat) {
    && p < 200 && pages(p).Page? && pages(p).next == None
    && (forall i: nat :: i <= p ==> Readable(pages(i)))
    && (forall i: nat :: i < p ==> pages(i).next.Some?)
    && (forall i: nat, j: nat :: i < j < p ==> pages(i).next != pages(j).next)
  }

  lemma LastPageUnique(pages: nat -> Response, p: nat, q: nat)
    requires LastPage(pages, p) && LastPage(pages, q)
    ensures p == q
  {}

  // ---- deduplication

  // Photo `i` is the first with its key.
  predicate First(photos: seq<Photo>, i: nat) {
    i < |photos| && forall j :: 0 <= j < i ==> photos[j].key != photos[i].key
  }

  // `kept` are the first photos of their keys, all of them, in order; they stand at `at`.
  ghost predicate FirstOnes(photos: seq<Photo>, kept: seq<Photo>, at: seq<nat>) {
    && |at| == |kept|
    && (forall n :: 0 <= n < |at| ==> First(photos, at[n]) && kept[n] == photos[at[n]])
    && (forall m, n :: 0 <= m < n < |at| ==> at[m] < at[n])
    && (forall i: nat :: First(photos, i) ==> i in at)
  }

  // The kept photos are the first ones of their keys, in order of appearance.
  lemma {:induction false} DeduplicatedAre(photos: seq<Photo>) returns (at: seq<nat>)
    ensures FirstOnes(photos, Deduplicated(photos), at)
  {
    at := [];
    if photos != [] {
      hide FirstOnes, First, Keys;
      var before, last := photos[..|photos| - 1], |photos| - 1;
      at := DeduplicatedAre(before);
      FirstBefore(photos);
      if photos[last].key in Keys(before) {
        FirstOnesStay(photos, Deduplicated(before), at);
      } else {
        FirstOnesMore(photos, Deduplicated(before), at);
        at := at + [last];
      }
    }
  }

  lemma FirstOnesStay(photos: seq<Photo>, kept: seq<Photo>, at: seq<nat>)
    requires photos != [] && FirstOnes(photos[..|photos| - 1], kept, at) && !First(photos, |photos| - 1)
    ensures FirstOnes(photos, kept, at)
  {
    FirstBefore(photos);
    hide First, Keys;
  }

  lemma FirstOnesMore(photos: seq<Photo>, kept: seq<Photo>, at: seq<nat>)
    requires photos != [] && FirstOnes(photos[..|photos| - 1], kept, at) && First(photos, |photos| - 1)
    ensures FirstOnes(photos, kept + [photos[|photos| - 1]], at + [|photos| - 1])
  {
    FirstBefore(photos);
    hide First, Keys;
    var more := at + [|photos| - 1];
    assert more[|at|] == |photos| - 1;
    forall i | i in at ensures i in more {
      var n :| 0 <= n < |at| && at[n] == i;
      assert more[n] == i;
    }
  }

  // All but the last photo are first ones as before, the last if its key is new.
  lemma FirstBefore(photos: seq<Photo>)
    requires photos != []
    ensures var before, last := photos[..|photos| - 1], |photos| - 1;
            && (forall i: nat :: i < last ==> (First(photos, i) <==> First(before, i)))
            && (forall i: nat :: First(before, i) ==> i < last)
            && (forall i: nat :: First(photos, i) ==> i <= last)
            && (First(photos, last) <==> photos[last].key !in Keys(before))
  {
    var before, last := photos[..|photos| - 1], |photos| - 1;
    if photos[last].key !in Keys(before) {
      forall j | 0 <= j < last ensures photos[j].key != photos[last].key {
        assert before[j] in before;
      }
    }
  }

  lemma StepPhotos(items: seq<Item>, item: Item)
    ensures PhotosIn(items + [item]) == PhotosIn(items) + (if item.Good? then [item.photo] else [])
    ensures Videos(items + [item]) == Videos(items) + (if item.Video? then 1 else 0)
  {
    assert (items + [item])[..|items|] == items;
  }

  lemma StepDeduplicated(photos: seq<Photo>, p: Photo)
    ensures Deduplicated(photos + [p]) == Deduplicated(photos) + (if p.key in Keys(photos) then [] else [p])
    ensures Keys(photos + [p]) == Keys(photos) + {p.key}
  {
    assert (photos + [p])[..|photos|] == photos;
  }

  // The photos of a list of items are its good ones, all of them, in order; they
  // stand at `at`.
  ghost predicate GoodOnes(items: seq<Item>, photos: seq<Photo>, at: seq<nat>) {
    && |at| == |photos|
    && (forall n :: 0 <= n < |at| ==> at[n] < |items| && items[at[n]] == Good(photos[n]))
    && (forall m, n :: 0 <= m < n < |at| ==> at[m] < at[n])
    && (forall i :: 0 <= i < |items| && items[i].Good? ==> i in at)
  }

  lemma {:induction false} PhotosInAre(items: seq<Item>) returns (at: seq<nat>)
    ensures GoodOnes(items, PhotosIn(items), at)
  {
    at := [];
    if items != [] {
      var init, last := items[..|items| - 1], items[|items| - 1];
      at := PhotosInAre(init);
      hide PhotosIn, GoodOnes;
      PhotosInLast(items);
      assert items == init + [last];
      if last.Good? {
        GoodOnesMore(init, PhotosIn(init), at, last);
        at := at + [|init|];
      } else {
        GoodOnesStay(init, PhotosIn(init), at, last);
        assert PhotosIn(init) + [] == PhotosIn(init);
      }
    }
  }

  lemma PhotosInLast(items: seq<Item>)
    requires items != []
    ensures PhotosIn(items) ==
            PhotosIn(items[..|items| - 1]) + if items[|items| - 1].Good? then [items[|items| - 1].photo] else []
  {}

  lemma GoodOnesStay(items: seq<Item>, photos: seq<Photo>, at: seq<nat>, item: Item)
    requires GoodOnes(items, photos, at) && !item.Good?
    ensures GoodOnes(items + [item], photos, at)
  {}

  lemma GoodOnesMore(items: seq<Item>, photos: seq<Photo>, at: seq<nat>, item: Item)
    requires GoodOnes(items, photos, at) && item.Good?
    ensures GoodOnes(items + [item], photos + [item.photo], at + [|items|])
  {
    var more := at + [|items|];
    assert more[|at|] == |items|;
    forall i | i in at ensures i in more {
      var n :| 0 <= n < |at| && at[n] == i;
      assert more[n] == i;
    }
  }

  // ---- the reader

  // What was read so far, in the reader's variables.
  ghost predicate ReadSoFar(items: seq<Item>, photos: seq<Photo>, seen: set<string>, videos: nat) {
    photos == Deduplicated(PhotosIn(items)) && seen == Keys(PhotosIn(items)) && videos == Videos(items)
  }

  lemma ReadStep(items: seq<Item>, item: Item, photos: seq<Photo>, seen: set<string>, videos: nat)
    requires ReadSoFar(items, photos, seen, videos)
    ensures item.Video? ==> ReadSoFar(items + [item], photos, seen, videos + 1)
    ensures item.Good? && item.photo.key in seen ==> ReadSoFar(items + [item], photos, seen, videos)
    ensures item.Good? && item.photo.key !in seen ==>
              ReadSoFar(items + [item], photos + [item.photo], seen + {item.photo.key}, videos)
  {
    hide Deduplicated, PhotosIn, Videos, Keys;
    StepPhotos(items, item);
    if item.Good? {
      StepDeduplicated(PhotosIn(items), item.photo);
      assert item.photo.key in seen ==> seen + {item.photo.key} == seen;
      assert PhotosIn(items) + [] == PhotosIn(items) && Deduplicated(PhotosIn(items)) + [] == Deduplicated(PhotosIn(items));
    } else {
      assert PhotosIn(items) + [] == PhotosIn(items);
    }
  }

  method ReadPage(page: seq<Item>, photos: seq<Photo>, seen: set<string>, videos: nat, ghost items: seq<Item>)
    returns (ok: bool, photos': seq<Photo>, seen': set<string>, videos': nat)
    requires ReadSoFar(items, photos, seen, videos)
    ensures ok <==> Malformed !in page
    ensures ok ==> ReadSoFar(items + page, photos', seen', videos')
  {
    hide ReadSoFar;
    ok, photos', seen', videos' := true, photos, seen, videos;
    assert items + page[..0] == items;
    for n: nat := 0 to |page|
      invariant Malformed !in page[..n]
      invariant ReadSoFar(items + page[..n], photos', seen', videos')
    {
      var item := page[n];
      assert items + page[..n + 1] == items + page[..n] + [item];
      ReadStep(items + page[..n], item, photos', seen', videos');
      match item
      case Video => videos' := videos' + 1;
      case Malformed =>
        ok := false;
        return;
      case Good(photo) =>
        if photo.key !in seen' {
          seen' := seen' + {photo.key};
          photos' := photos' + [photo];
        }
    }
    assert page[..|page|] == page;
  }

  // The first `n` pages were readable, each with a new token.
  ghost predicate GoingOn(pages: nat -> Response, n: nat, tokens: set<string>) {
    && (forall i: nat :: i < n ==> Readable(pages(i)) && pages(i).next.Some? && pages(i).next.value in tokens)
    && (forall t :: t in tokens ==> exists i: nat :: i < n && Readable(pages(i)) && pages(i).next == Some(t))
    && (forall i: nat, j: nat :: i < j < n ==> Readable(pages(i)) && Readable(pages(j)) && pages(i).next != pages(j).next)
  }

  lemma NewToken(pages: nat -> Response, n: nat, tokens: set<string>, t: string)
    requires GoingOn(pages, n, tokens) && Readable(pages(n)) && pages(n).next == Some(t) && t !in tokens
    ensures GoingOn(pages, n + 1, tokens + {t})
  {
    forall u | u in tokens + {t} ensures exists i: nat :: i < n + 1 && Readable(pages(i)) && pages(i).next == Some(u) {
      if u in tokens {
        var i: nat :| i < n && Readable(pages(i)) && pages(i).next == Some(u);
        assert i < n + 1;
      } else {
        assert n < n + 1;
      }
    }
  }

  lemma EndsHere(pages: nat -> Response, n: nat, tokens: set<string>)
    requires n < MAX_PAGES && GoingOn(pages, n, tokens) && Readable(pages(n)) && pages(n).next == None
    ensures LastPage(pages, n)
  {}

  // A page that cannot be read, a repeated token or too many pages: no last page.
  lemma NoLastPage(pages: nat -> Response, n: nat, tokens: set<string>, p: nat)
    requires GoingOn(pages, n, tokens) && n <= MAX_PAGES
    requires n == MAX_PAGES || !Readable(pages(n)) || (pages(n).next.Some? && pages(n).next.value in tokens)
    ensures !LastPage(pages, p)
  {
    if p >= n && n < MAX_PAGES && Readable(pages(n)) {
      var i: nat :| i < n && Readable(pages(i)) && pages(i).next == pages(n).next;
    }
  }

  // The whole album or nothing; `shared` says whether its first page gave the keys.
  method FetchAlbum(shared: bool, pages: nat -> Response) returns (r: Result, requests: nat)
    ensures requests <= 200
    ensures r.Album? <==> shared && exists p: nat :: LastPage(pages, p) && Deduplicated(PhotosIn(ItemsOf(pages, p + 1))) != []
    ensures r.Album? ==> requests > 0 && LastPage(pages, requests - 1)
    ensures r.Album? ==> r.photos == Deduplicated(PhotosIn(ItemsOf(pages, requests))) && r.photos != []
    ensures r.Album? ==> r.videos == Videos(ItemsOf(pages, requests))
  {
    hide LastPage, GoingOn, Deduplicated, PhotosIn, Videos, Keys;
    requests := 0;
    if !shared {
      return Raised, 0;
    }
    var photos: seq<Photo>, seen: set<string>, videos: nat := [], {}, 0;
    var tokens: set<string> := {};
    NothingRead(pages);
    while requests < MAX_PAGES
      invariant requests <= MAX_PAGES
      invariant ReadSoFar(ItemsOf(pages, requests), photos, seen, videos)
      invariant GoingOn(pages, requests, tokens)
    {
      var page := pages(requests);
      ghost var n: nat := requests;
      requests := requests + 1;
      if page.Failure? {
        forall p: nat ensures !LastPage(pages, p) { NoLastPage(pages, n, tokens, p); }
        return Raised, requests;
      }
      var ok;
      ok, photos, seen, videos := ReadPage(page.items, photos, seen, videos, ItemsOf(pages, n));
      if !ok {
        forall p: nat ensures !LastPage(pages, p) { NoLastPage(pages, n, tokens, p); }
        return Raised, requests;
      }
      if page.next == None {
        EndsHere(pages, n, tokens);
        if photos == [] {
          forall p: nat | LastPage(pages, p) ensures p == n { LastPageUnique(pages, p, n); }
          return Raised, requests;
        }
        return Album(photos, videos), requests;
      }
      if page.next.value in tokens {
        forall p: nat ensures !LastPage(pages, p) { NoLastPage(pages, n, tokens, p); }
        return Raised, requests;
      }
      NewToken(pages, n, tokens, page.next.value);
      tokens := tokens + {page.next.value};
    }
    forall p: nat ensures !LastPage(pages, p) { NoLastPage(pages, requests, tokens, p); }
    r := Raised;
  }

  lemma NothingRead(pages: nat -> Response)
    ensures ReadSoFar([], [], {}, 0) && GoingOn(pages, 0, {})
  {}
}
