// The kitchen screensaver's image cache: the last few images in memory, bounded
// by their bytes, the least recently used going first.

module ImageCache {
  import opened Options

  datatype Image = Image(data: seq<nat>, kind: string)

  // Oldest use first, as an ordered dictionary keeps them.
  datatype Entry = Entry(key: string, image: Image)

  type Items = seq<Entry>

  function Total(items: Items): nat {
    if items == [] then 0 else |items[0].image.data| + Total(items[1..])
  }

  predicate Has(items: Items, key: string) {
    exists e :: e in items && e.key == key
  }

  ghost predicate DistinctKeys(items: Items) {
    forall i, j :: 0 <= i < j < |items| ==> items[i].key != items[j].key
  }

  function IndexOf(items: Items, key: string): (i: nat)
    requires Has(items, key)
    ensures i < |items| && items[i].key == key
  {
    if items[0].key == key then 0
    else
      assert Has(items[1..], key) by {
        var e :| e in items && e.key == key;
        assert e in items[1..];
      }
      1 + IndexOf(items[1..], key)
  }

  // ---- the two operations on values

  function ToEnd(items: Items, i: nat): Items
    requires i < |items|
  {
    items[..i] + items[i + 1..] + [items[i]]
  }

  function Touched(items: Items, key: string): Items {
    if Has(items, key) then ToEnd(items, IndexOf(items, key)) else items
  }

  function Evicted(items: Items, max: nat): Items {
    if Total(items) <= max || items == [] then items else Evicted(items[1..], max)
  }

  function Added(items: Items, max: nat, key: string, image: Image): Items {
    if |image.data| > max || Has(items, key) then items else Evicted(items + [Entry(key, image)], max)
  }

  ghost predicate Bounded(items: Items, max: nat) {
    DistinctKeys(items) && Total(items) <= max
  }

  lemma {:induction false} TotalConcat(a: Items, b: Items)
    ensures Total(a + b) == Total(a) + Total(b)
  {
    if a == [] {
      assert a + b == b;
    } else {
      assert (a + b)[1..] == a[1..] + b;
      TotalConcat(a[1..], b);
    }
  }

  // The shortest prefix whose loss makes the rest fit goes, and nothing else.
  lemma {:induction false} EvictsShortestPrefix(items: Items, max: nat) returns (d: nat)
    ensures d <= |items| && Evicted(items, max) == items[d..] && Total(items[d..]) <= max
    ensures forall k :: 0 <= k < d ==> Total(items[k..]) > max
  {
    if Total(items) <= max || items == [] {
      d := 0;
      assert items[0..] == items;
    } else {
      var rest := EvictsShortestPrefix(items[1..], max);
      d := rest + 1;
      assert items[1..][rest..] == items[d..];
      forall k | 0 <= k < d ensures Total(items[k..]) > max {
        if k == 0 {
          assert items[0..] == items;
        } else {
          assert items[1..][k - 1..] == items[k..];
        }
      }
    }
  }

  lemma SuffixTotals(items: Items, last: Items)
    ensures forall k :: 0 <= k <= |items| ==> (items + last)[k..] == items[k..] + last
    ensures forall k :: 0 <= k <= |items| ==> Total((items + last)[k..]) == Total(items[k..]) + Total(last)
  {
    hide Total;
    forall k | 0 <= k <= |items|
      ensures (items + last)[k..] == items[k..] + last && Total((items + last)[k..]) == Total(items[k..]) + Total(last)
    {
      TotalConcat(items[k..], last);
    }
  }

  // A put of a new image that fits keeps it, drops the shortest least recent
  // prefix that makes room, and leaves the rest as it was.
  lemma AddedKeeps(items: Items, max: nat, key: string, image: Image) returns (d: nat)
    requires Bounded(items, max) && |image.data| <= max && !Has(items, key)
    ensures d <= |items| && Added(items, max, key, image) == items[d..] + [Entry(key, image)]
    ensures Total(items[d..]) + |image.data| <= max
    ensures forall k :: 0 <= k < d ==> Total(items[k..]) + |image.data| > max
    ensures Bounded(Added(items, max, key, image), max)
  {
    var last := [Entry(key, image)];
    var all := items + last;
    assert Total(last) == |image.data|;
    hide Total, Evicted, DistinctKeys, Has;
    d := EvictsShortestPrefix(all, max);
    assert all[|items|..] == last;
    assert d <= |items|;
    SuffixTotals(items, last);
    SuffixDistinct(items, d, Entry(key, image));
  }

  lemma SuffixDistinct(items: Items, d: nat, e: Entry)
    requires d <= |items| && DistinctKeys(items) && !Has(items, e.key)
    ensures DistinctKeys(items[d..] + [e])
  {
    assert forall n :: 0 <= n < |items| ==> items[n] in items;
  }

  // Where each entry comes from when the one at `i` goes to the end.
  function Origin(i: nat, count: nat, n: nat): nat {
    if n < i then n else if n + 1 < count then n + 1 else i
  }

  lemma ToEndAt(items: Items, i: nat)
    requires i < |items|
    ensures |ToEnd(items, i)| == |items|
    ensures forall n :: 0 <= n < |items| ==> ToEnd(items, i)[n] == items[Origin(i, |items|, n)]
    ensures multiset(ToEnd(items, i)) == multiset(items)
  {
    assert items == items[..i] + [items[i]] + items[i + 1..];
  }

  lemma ToEndDistinct(items: Items, i: nat)
    requires i < |items| && DistinctKeys(items)
    ensures DistinctKeys(ToEnd(items, i))
  {
    hide ToEnd;
    ToEndAt(items, i);
    var c := |items|;
    forall m, n | 0 <= m < n < c ensures ToEnd(items, i)[m].key != ToEnd(items, i)[n].key {
      assert Origin(i, c, m) < Origin(i, c, n) < c || Origin(i, c, n) < Origin(i, c, m) < c;
    }
  }

  lemma TouchedTotal(items: Items, key: string)
    ensures Total(Touched(items, key)) == Total(items)
  {
    if Has(items, key) {
      var i := IndexOf(items, key);
      var a, b, c := items[..i], [items[i]], items[i + 1..];
      assert items == a + (b + c);
      hide Total;
      TotalConcat(a, b + c);
      TotalConcat(b, c);
      TotalConcat(a + c, b);
      TotalConcat(a, c);
    }
  }

  lemma TouchedKeeps(items: Items, key: string)
    requires DistinctKeys(items)
    ensures DistinctKeys(Touched(items, key)) && Total(Touched(items, key)) == Total(items)
    ensures multiset(Touched(items, key)) == multiset(items)
    ensures Has(items, key) ==> Touched(items, key)[|items| - 1].key == key
  {
    TouchedTotal(items, key);
    hide Total, ToEnd, DistinctKeys;
    if Has(items, key) {
      ToEndAt(items, IndexOf(items, key));
      ToEndDistinct(items, IndexOf(items, key));
    }
  }

  // ---- the class

  class Cache {
    const max: nat
    var items: Items
    var size: nat

    ghost predicate Valid()
      reads this
    {
      Bounded(items, max) && size == Total(items)
    }

    constructor (max: nat)
      ensures Valid() && this.max == max && items == []
    {
      this.max, items, size := max, [], 0;
    }

    method Get(key: string) returns (r: Option<Image>)
      requires Valid()
      modifies `items
      ensures Valid() && items == Touched(old(items), key)
      ensures r == (if Has(old(items), key) then Some(old(items)[IndexOf(old(items), key)].image) else None)
    {
      TouchedKeeps(items, key);
      if !Has(items, key) {
        return None;
      }
      var i := IndexOf(items, key);
      r := Some(items[i].image);
      items := ToEnd(items, i);
    }

    method Put(key: string, image: Image)
      requires Valid()
      modifies this
      ensures Valid() && items == Added(old(items), max, key, image)
    {
      var n := |image.data|;
      if n > max || Has(items, key) {
        return;
      }
      ghost var _ := AddedKeeps(items, max, key, image);
      TotalConcat(items, [Entry(key, image)]);
      items := items + [Entry(key, image)];
      size := size + n;
      while size > max
        invariant size == Total(items)
        invariant Evicted(items, max) == Added(old(items), max, key, image)
        decreases |items|
      {
        size := size - |items[0].image.data|;
        items := items[1..];
      }
    }
  }

  // ---- whole runs

  datatype Op = Get(key: string) | Put(key: string, image: Image)

  function Step(items: Items, max: nat, op: Op): Items {
    match op
    case Get(key) => Touched(items, key)
    case Put(key, image) => Added(items, max, key, image)
  }

  function After(ops: seq<Op>, max: nat): Items {
    if ops == [] then [] else Step(After(ops[..|ops| - 1], max), max, ops[|ops| - 1])
  }

  // The operation used the key: a get that found it, or the put that stored it.
  predicate Uses(items: Items, max: nat, op: Op) {
    match op
    case Get(key) => Has(items, key)
    case Put(key, image) => |image.data| <= max && !Has(items, key)
  }

  // When the key was last used, counting operations from 1; 0 for never.
  function LastUse(ops: seq<Op>, max: nat, key: string): (n: nat)
    ensures n <= |ops|
  {
    if ops == [] then 0
    else
      var before, op := ops[..|ops| - 1], ops[|ops| - 1];
      if op.key == key && Uses(After(before, max), max, op) then |ops| else LastUse(before, max, key)
  }

  ghost predicate Ordered(items: Items, ops: seq<Op>, max: nat) {
    forall i, j :: 0 <= i < j < |items| ==> LastUse(ops, max, items[i].key) < LastUse(ops, max, items[j].key)
  }

  ghost predicate Stored(items: Items, ops: seq<Op>, max: nat) {
    forall e :: e in items ==> LastUse(ops, max, e.key) > 0 && Put(e.key, e.image) in ops
  }

  // After any sequence of gets and puts what is stored fits, each stored image
  // was put under its key, and the order is the order of last use.
  lemma {:induction false} OrderIsRecency(ops: seq<Op>, max: nat)
    ensures Bounded(After(ops, max), max)
    ensures Ordered(After(ops, max), ops, max) && Stored(After(ops, max), ops, max)
  {
    hide LastUse, Ordered, Stored, Bounded;
    if ops == [] {
      NothingStored(max);
    } else {
      var before, op := ops[..|ops| - 1], ops[|ops| - 1];
      OrderIsRecency(before, max);
      assert ops == before + [op];
      match op
      case Get(key) => TouchedOrder(before, max, key);
      case Put(key, image) => AddedOrder(before, max, key, image);
    }
  }

  lemma NothingStored(max: nat)
    ensures Bounded([], max) && Ordered([], [], max) && Stored([], [], max)
  {}

  lemma LastUseStep(before: seq<Op>, max: nat, op: Op, key: string)
    ensures LastUse(before + [op], max, key) ==
            if op.key == key && Uses(After(before, max), max, op) then |before| + 1 else LastUse(before, max, key)
  {
    assert (before + [op])[..|before|] == before;
  }

  lemma TouchedOrder(before: seq<Op>, max: nat, key: string)
    requires var items := After(before, max); Bounded(items, max) && Ordered(items, before, max) && Stored(items, before, max)
    ensures var items := Touched(After(before, max), key);
            Bounded(items, max) && Ordered(items, before + [Get(key)], max) && Stored(items, before + [Get(key)], max)
  {
    var items := After(before, max);
    TouchedKeeps(items, key);
    if Has(items, key) {
      var i := IndexOf(items, key);
      OthersDiffer(items, i, max);
      hide After, LastUse, Total, Ordered, Stored, IndexOf, Has, DistinctKeys, ToEnd;
      EndOrdered(items, i, before, max);
      EndStored(items, i, before, max);
    } else {
      MissChangesNothing(items, before, max, key);
    }
  }

  lemma MissChangesNothing(items: Items, before: seq<Op>, max: nat, key: string)
    requires items == After(before, max) && !Has(items, key) && Ordered(items, before, max) && Stored(items, before, max)
    ensures Ordered(items, before + [Get(key)], max) && Stored(items, before + [Get(key)], max)
  {
    hide LastUse, After;
    forall e | e in items ensures LastUse(before + [Get(key)], max, e.key) == LastUse(before, max, e.key) {
      LastUseStep(before, max, Get(key), e.key);
    }
  }

  lemma EndStored(items: Items, i: nat, before: seq<Op>, max: nat)
    requires i < |items| && items == After(before, max) && Stored(items, before, max)
    ensures Stored(ToEnd(items, i), before + [Get(items[i].key)], max)
  {
    hide LastUse, After, ToEnd;
    ToEndAt(items, i);
    forall e | e in ToEnd(items, i)
      ensures LastUse(before + [Get(items[i].key)], max, e.key) > 0 && Put(e.key, e.image) in before + [Get(items[i].key)]
    {
      assert e in multiset(ToEnd(items, i));
      LastUseStep(before, max, Get(items[i].key), e.key);
    }
  }

  lemma EndOrdered(items: Items, i: nat, before: seq<Op>, max: nat)
    requires i < |items| && items == After(before, max) && Ordered(items, before, max)
    requires forall k :: 0 <= k < |items| && k != i ==> items[k].key != items[i].key
    ensures Ordered(ToEnd(items, i), before + [Get(items[i].key)], max)
  {
    hide LastUse, After, ToEnd, Origin;
    ToEndAt(items, i);
    var op, now := Get(items[i].key), ToEnd(items, i);
    forall m, n | 0 <= m < n < |items|
      ensures LastUse(before + [op], max, now[m].key) < LastUse(before + [op], max, now[n].key)
    {
      LaterAtEnd(items, i, m, n, before, max);
    }
  }

  lemma LaterAtEnd(items: Items, i: nat, m: nat, n: nat, before: seq<Op>, max: nat)
    requires i < |items| && m < n < |items| && items == After(before, max) && Ordered(items, before, max)
    requires forall k :: 0 <= k < |items| && k != i ==> items[k].key != items[i].key
    ensures var op, c := Get(items[i].key), |items|;
            LastUse(before + [op], max, items[Origin(i, c, m)].key) < LastUse(before + [op], max, items[Origin(i, c, n)].key)
  {
    var op, c := Get(items[i].key), |items|;
    var x, y := Origin(i, c, m), Origin(i, c, n);
    LastUseStep(before, max, op, items[x].key);
    LastUseStep(before, max, op, items[y].key);
    hide LastUse, After;
    assert items[i] in items;
    assert x != i && (y == i || x < y);
  }

  lemma OthersDiffer(items: Items, i: nat, max: nat)
    requires i < |items| && Bounded(items, max)
    ensures forall n :: 0 <= n < |items| && n != i ==> items[n].key != items[i].key
  {}

  lemma AddedOrder(before: seq<Op>, max: nat, key: string, image: Image)
    requires var items := After(before, max); Bounded(items, max) && Ordered(items, before, max) && Stored(items, before, max)
    ensures var items := Added(After(before, max), max, key, image);
            && Bounded(items, max) && Ordered(items, before + [Put(key, image)], max)
            && Stored(items, before + [Put(key, image)], max)
  {
    var items, op := After(before, max), Put(key, image);
    hide LastUse, After, Added, Total;
    if |image.data| > max || Has(items, key) {
      AddedNothing(items, max, key, image);
      forall e | e in items ensures LastUse(before + [op], max, e.key) == LastUse(before, max, e.key) {
        LastUseStep(before, max, op, e.key);
      }
    } else {
      var d := AddedKeeps(items, max, key, image);
      forall e | e in items ensures e.key != key && LastUse(before + [op], max, e.key) == LastUse(before, max, e.key) {
        LastUseStep(before, max, op, e.key);
      }
      LastUseStep(before, max, op, key);
      assert op in before + [op];
    }
  }

  lemma AddedNothing(items: Items, max: nat, key: string, image: Image)
    requires |image.data| > max || Has(items, key)
    ensures Added(items, max, key, image) == items
  {}
}
