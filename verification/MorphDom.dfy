// `morphChildren` and `morphNode` on a live document: nodes are patched, moved,
// taken from the template and removed in place. The document is proved to end
// up holding exactly the tree that Morph.MorphKids / Morph.MorphNode describe,
// same node identities included, with every node outside the two trees untouched.

module MorphDom {
  import opened Morph
  import opened Options

  datatype DomNode = DomNode(nodeType: nat, name: string, attrs: map<string, string>, value: string, kids: seq<nat>)

  type Nodes = map<nat, DomNode>

  // ---- the tree held at a node

  ghost predicate Holds(nodes: Nodes, t: Node) {
    && t.id in nodes
    && var d := nodes[t.id];
       && d.name == t.name
       && match t
          case Leaf(_, nodeType, _, value) => d.nodeType == nodeType && nodeType != 1 && d.value == value
          case Element(_, _, attrs, kids) => d.nodeType == 1 && d.attrs == attrs && d.kids == Roots(kids) && HoldsAll(nodes, kids)
  }

  ghost predicate HoldsAll(nodes: Nodes, s: seq<Node>) {
    forall i :: 0 <= i < |s| ==> Holds(nodes, s[i])
  }

  ghost function Roots(s: seq<Node>): (r: seq<nat>)
    ensures |r| == |s| && forall i :: 0 <= i < |s| ==> r[i] == s[i].id
  {
    seq(|s|, i requires 0 <= i < |s| => s[i].id)
  }

  // Every identity in a tree, with multiplicity.
  ghost function Bag(t: Node): (m: multiset<nat>)
    ensures t.id in m
  {
    match t
    case Leaf(id, _, _, _) => multiset{id}
    case Element(id, _, _, kids) => multiset{id} + BagAll(kids)
  }

  ghost function BagAll(s: seq<Node>): multiset<nat> {
    if s == [] then multiset{} else Bag(s[0]) + BagAll(s[1..])
  }

  ghost predicate Unique(m: multiset<nat>) {
    forall x :: m[x] <= 1
  }

  ghost predicate Distinct(s: seq<nat>) {
    forall i, j :: 0 <= i < j < |s| ==> s[i] != s[j]
  }

  lemma DistinctCons(x: nat, s: seq<nat>)
    requires x !in s && Distinct(s)
    ensures Distinct([x] + s)
  {}

  // No node is listed twice among all child lists.
  ghost predicate Forest(nodes: Nodes) {
    && (forall p :: p in nodes ==> Distinct(nodes[p].kids))
    && (forall p, q, x :: p in nodes && q in nodes && x in nodes[p].kids && x in nodes[q].kids ==> p == q)
  }

  lemma {:induction false} BagAllConcat(s: seq<Node>, t: seq<Node>)
    ensures BagAll(s + t) == BagAll(s) + BagAll(t)
  {
    if s == [] {
      assert s + t == t;
    } else {
      assert (s + t)[1..] == s[1..] + t;
      BagAllConcat(s[1..], t);
    }
  }

  lemma BagAllHead(s: seq<Node>)
    requires s != []
    ensures BagAll(s) == Bag(s[0]) + BagAll(s[1..])
  {}

  lemma BagAllWithout(s: seq<Node>, i: nat)
    requires i < |s|
    ensures BagAll(s) == Bag(s[i]) + BagAll(Without(s, i))
  {
    hide Bag, BagAll;
    BagAllConcat(s[..i], s[i..]);
    BagAllConcat(s[..i], s[i + 1..]);
    assert s == s[..i] + s[i..];
    BagAllHead(s[i..]);
    assert s[i..][1..] == s[i + 1..];
  }

  lemma BagAllAt(s: seq<Node>, i: nat)
    requires i < |s|
    ensures Bag(s[i]) <= BagAll(s)
  {
    BagAllWithout(s, i);
  }

  // Patching neither invents nor duplicates a node.
  lemma {:induction false} MorphKidsBag(rest: seq<Node>, want: seq<Node>)
    ensures BagAll(MorphKids(rest, want)) <= BagAll(rest) + BagAll(want)
    decreases want
  {
    if want != [] {
      var i := Hit(rest, want[0]);
      if i < |rest| {
        MorphNodeBag(rest[i], want[0]);
        MorphKidsBag(Without(rest, i), want[1..]);
        BagAllWithout(rest, i);
        var n := MorphNode(rest[i], want[0]);
        assert ([n] + MorphKids(Without(rest, i), want[1..]))[1..] == MorphKids(Without(rest, i), want[1..]);
      } else {
        MorphKidsBag(rest, want[1..]);
        assert ([want[0]] + MorphKids(rest, want[1..]))[1..] == MorphKids(rest, want[1..]);
      }
    }
  }

  lemma {:induction false} MorphNodeBag(a: Node, b: Node)
    requires SameKind(a, b)
    ensures Bag(MorphNode(a, b)) <= Bag(a) + Bag(b)
    decreases b
  {
    if a.Element? && !IsFormControl(a.name) {
      MorphKidsBag(a.kids, b.kids);
    }
  }

  // A tree is untouched by changes to other nodes.
  lemma {:induction false} HoldsFrame(before: Nodes, after: Nodes, t: Node)
    requires Holds(before, t)
    requires forall x :: x in Bag(t) && x in before ==> x in after && after[x] == before[x]
    ensures Holds(after, t)
  {
    if t.Element? {
      HoldsAllFrame(before, after, t.kids);
    }
  }

  lemma {:induction false} HoldsAllFrame(before: Nodes, after: Nodes, s: seq<Node>)
    requires HoldsAll(before, s)
    requires forall x :: x in BagAll(s) && x in before ==> x in after && after[x] == before[x]
    ensures HoldsAll(after, s)
  {
    forall i | 0 <= i < |s|
      ensures Holds(after, s[i])
    {
      BagAllAt(s, i);
      HoldsFrame(before, after, s[i]);
    }
  }

  // ---- child lists

  function Drop(s: seq<nat>, x: nat): (r: seq<nat>)
    ensures x !in s ==> r == s
  {
    if s == [] then [] else if s[0] == x then s[1..] else [s[0]] + Drop(s[1..], x)
  }

  function PutBefore(s: seq<nat>, x: nat, before: Option<nat>): seq<nat> {
    if s == [] || before == Some(s[0]) then [x] + s else [s[0]] + PutBefore(s[1..], x, before)
  }

  function Next(s: seq<nat>, x: nat): Option<nat> {
    if s == [] then None
    else if s[0] == x then (if |s| > 1 then Some(s[1]) else None)
    else Next(s[1..], x)
  }

  function First(s: seq<nat>): Option<nat> {
    if s == [] then None else Some(s[0])
  }

  lemma {:induction false} DropAt(s: seq<nat>, i: nat)
    requires i < |s| && forall j :: 0 <= j < i ==> s[j] != s[i]
    ensures Drop(s, s[i]) == s[..i] + s[i + 1..]
  {
    if i > 0 {
      DropAt(s[1..], i - 1);
    }
  }

  lemma {:induction false} PutBeforeAt(s: seq<nat>, x: nat, i: nat)
    requires i <= |s| && forall j :: 0 <= j < i ==> i == |s| || s[j] != s[i]
    ensures PutBefore(s, x, First(s[i..])) == s[..i] + [x] + s[i..]
  {
    if i > 0 {
      assert s[1..][i - 1..] == s[i..];
      PutBeforeAt(s[1..], x, i - 1);
    }
  }

  lemma {:induction false} NextAt(s: seq<nat>, i: nat)
    requires i < |s| && forall j :: 0 <= j < i ==> s[j] != s[i]
    ensures Next(s, s[i]) == First(s[i + 1..])
  {
    if i > 0 {
      NextAt(s[1..], i - 1);
      assert s[1..][i..] == s[i + 1..];
    }
  }

  // ---- the document

  function Detached(nodes: Nodes, x: nat): Nodes {
    map p | p in nodes :: nodes[p].(kids := Drop(nodes[p].kids, x))
  }

  function Inserted(nodes: Nodes, parent: nat, x: nat, before: Option<nat>): Nodes
    requires parent in nodes
  {
    var d := Detached(nodes, x);
    d[parent := d[parent].(kids := PutBefore(d[parent].kids, x, before))]
  }

  // State of the loop of `morphChildren(a, b)`: the children of `a` are `done`
  // followed by the untouched `rest`; `want` are the template nodes still to come.
  ghost predicate Working(start: Nodes, nodes: Nodes, ta: Node, tb: Node,
                          done: seq<Node>, rest: seq<Node>, want: seq<Node>)
  {
    && ta.Element? && tb.Element?
    && Forest(nodes) && nodes.Keys == start.Keys
    && ta.id in nodes && tb.id in nodes
    && nodes[ta.id] == start[ta.id].(kids := Roots(done) + Roots(rest))
    && HoldsAll(nodes, done) && HoldsAll(nodes, rest) && HoldsAll(nodes, want)
    && (forall j :: 0 <= j < |want| ==> want[j].id in nodes[tb.id].kids)
    && multiset{ta.id, tb.id} + BagAll(done) + BagAll(rest) + BagAll(want) <= Bag(ta) + Bag(tb)
    && done + MorphKids(rest, want) == MorphKids(ta.kids, tb.kids)
    && Outside(start, nodes, Bag(ta) + Bag(tb))
  }

  ghost predicate Outside(before: Nodes, after: Nodes, bag: multiset<nat>) {
    forall x :: x in before && x !in bag ==> x in after && after[x] == before[x]
  }

  lemma {:induction false} RootInBag(s: seq<Node>, i: nat)
    requires i < |s|
    ensures s[i].id in BagAll(s)
  {
    BagAllAt(s, i);
  }

  // An insertion only changes the child lists that held the node or receive it.
  lemma InsertedEffect(nodes: Nodes, parent: nat, x: nat, before: Option<nat>, oldParent: nat)
    requires Forest(nodes) && parent in nodes && oldParent in nodes && x in nodes[oldParent].kids
    ensures Inserted(nodes, parent, x, before).Keys == nodes.Keys
    ensures forall p :: p in nodes && p != parent && p != oldParent ==> Inserted(nodes, parent, x, before)[p] == nodes[p]
    ensures Inserted(nodes, parent, x, before)[parent] ==
            nodes[parent].(kids := PutBefore(Drop(nodes[parent].kids, x), x, before))
    ensures oldParent != parent ==>
              Inserted(nodes, parent, x, before)[oldParent] ==
              nodes[oldParent].(kids := Drop(nodes[oldParent].kids, x))
  {}

  lemma {:induction false} DropKeepsOthers(s: seq<nat>, x: nat)
    requires Distinct(s)
    ensures Distinct(Drop(s, x))
    ensures forall y :: y in Drop(s, x) <==> y in s && y != x
  {
    if s != [] {
      assert s == [s[0]] + s[1..] && s[0] !in s[1..];
      if s[0] != x {
        DropKeepsOthers(s[1..], x);
        DistinctCons(s[0], Drop(s[1..], x));
      }
    }
  }

  lemma {:induction false} PutBeforeAdds(s: seq<nat>, x: nat, before: Option<nat>)
    requires x !in s && Distinct(s)
    ensures Distinct(PutBefore(s, x, before))
    ensures forall y :: y in PutBefore(s, x, before) <==> y in s || y == x
  {
    if s == [] || before == Some(s[0]) {
      DistinctCons(x, s);
    } else {
      assert s == [s[0]] + s[1..] && s[0] !in s[1..];
      PutBeforeAdds(s[1..], x, before);
      DistinctCons(s[0], PutBefore(s[1..], x, before));
    }
  }

  lemma InsertedForest(nodes: Nodes, parent: nat, x: nat, before: Option<nat>)
    requires Forest(nodes) && parent in nodes
    ensures Forest(Inserted(nodes, parent, x, before))
    ensures Inserted(nodes, parent, x, before).Keys == nodes.Keys
  {
    var d := Detached(nodes, x);
    forall p | p in nodes
      ensures Distinct(d[p].kids)
      ensures forall y :: y in d[p].kids <==> y in nodes[p].kids && y != x
    {
      DropKeepsOthers(nodes[p].kids, x);
    }
    PutBeforeAdds(d[parent].kids, x, before);
  }

  lemma DetachedForest(nodes: Nodes, parent: nat, x: nat)
    requires Forest(nodes) && parent in nodes
    ensures Forest(nodes[parent := nodes[parent].(kids := Drop(nodes[parent].kids, x))])
  {
    DropKeepsOthers(nodes[parent].kids, x);
  }

  // The trees in play share no node with each other or with the two parents.
  lemma Apart(a: nat, b: nat, d: multiset<nat>, r: multiset<nat>, w: multiset<nat>, all: multiset<nat>)
    requires Unique(all) && multiset{a, b} + d + r + w <= all
    ensures a != b
    ensures forall y :: y in d ==> y != a && y != b && y !in r && y !in w
    ensures forall y :: y in r ==> y != a && y != b && y !in d && y !in w
    ensures forall y :: y in w ==> y != a && y != b && y !in d && y !in r
    ensures forall y :: y in d || y in r || y in w || y == a || y == b ==> y in all
  {
    assert forall y :: (multiset{a, b} + d + r + w)[y] <= all[y] <= 1;
    assert forall y :: (multiset{a, b} + d + r + w)[y] == multiset{a, b}[y] + d[y] + r[y] + w[y];
    assert multiset{a, b}[a] >= 1 && multiset{a, b}[b] >= 1;
  }

  lemma StartWorking(nodes: Nodes, ta: Node, tb: Node)
    requires ta.Element? && tb.Element? && Forest(nodes) && Holds(nodes, ta) && Holds(nodes, tb)
    ensures Working(nodes, nodes, ta, tb, [], ta.kids, tb.kids)
  {
    hide Forest, MorphKids, Bag, BagAll, Holds, HoldsAll;
    StartBags(ta, tb);
    KidsHold(nodes, ta);
    KidsHold(nodes, tb);
    assert Roots([]) + Roots(ta.kids) == Roots(ta.kids);
    assert nodes[ta.id] == nodes[ta.id].(kids := Roots(ta.kids));
    assert HoldsAll(nodes, []) by {
      HoldsNone(nodes);
    }
    assert [] + MorphKids(ta.kids, tb.kids) == MorphKids(ta.kids, tb.kids);
  }

  lemma KidsHold(nodes: Nodes, t: Node)
    requires t.Element? && Holds(nodes, t)
    ensures t.id in nodes && nodes[t.id].kids == Roots(t.kids) && HoldsAll(nodes, t.kids)
  {}

  lemma HoldsNone(nodes: Nodes)
    ensures HoldsAll(nodes, [])
  {}

  lemma StartBags(ta: Node, tb: Node)
    requires ta.Element? && tb.Element?
    ensures multiset{ta.id, tb.id} + BagAll([]) + BagAll(ta.kids) + BagAll(tb.kids) == Bag(ta) + Bag(tb)
  {}

  lemma EndWorking(start: Nodes, nodes: Nodes, ta: Node, tb: Node, done: seq<Node>)
    requires Holds(start, ta) && Working(start, nodes, ta, tb, done, [], [])
    ensures Holds(nodes, ta.(kids := MorphKids(ta.kids, tb.kids)))
    ensures Forest(nodes) && nodes.Keys == start.Keys && Outside(start, nodes, Bag(ta) + Bag(tb))
  {
    assert done + MorphKids([], []) == done;
    assert Roots(done) + Roots([]) == Roots(done);
  }

  // Trees in play survive changes confined to the two parents' own entries.
  lemma TreesKept(nodes: Nodes, after: Nodes, a: nat, b: nat,
                  done: seq<Node>, rest: seq<Node>, want: seq<Node>, all: multiset<nat>)
    requires Unique(all) && multiset{a, b} + BagAll(done) + BagAll(rest) + BagAll(want) <= all
    requires HoldsAll(nodes, done) && HoldsAll(nodes, rest) && HoldsAll(nodes, want)
    requires forall y :: y in nodes && y != a && y != b ==> y in after && after[y] == nodes[y]
    ensures HoldsAll(after, done) && HoldsAll(after, rest) && HoldsAll(after, want)
  {
    Apart(a, b, BagAll(done), BagAll(rest), BagAll(want), all);
    HoldsAllFrame(nodes, after, done);
    HoldsAllFrame(nodes, after, rest);
    HoldsAllFrame(nodes, after, want);
  }

  // Moving the i-th of the remaining children to their front, as child lists.
  lemma MovedKids(done: seq<Node>, rest: seq<Node>, i: nat)
    requires 0 < i < |rest| && Distinct(Roots(done) + Roots(rest))
    ensures var kids := Roots(done) + Roots(rest);
            PutBefore(Drop(kids, rest[i].id), rest[i].id, Some(rest[0].id))
            == Roots(done) + Roots([rest[i]] + Without(rest, i))
  {
    hide Distinct, Drop, PutBefore, First;
    var kids := Roots(done) + Roots(rest);
    var x := rest[i].id;
    DroppedAt(done, rest, i);
    var dropped := Roots(done) + Roots(Without(rest, i));
    DropKeepsOthers(kids, x);
    PutAfterDone(done, Without(rest, i), x);
    assert Roots(done) + [x] + Roots(Without(rest, i)) == Roots(done) + Roots([rest[i]] + Without(rest, i));
  }

  lemma DroppedAt(done: seq<Node>, rest: seq<Node>, i: nat)
    requires i < |rest| && Distinct(Roots(done) + Roots(rest))
    ensures Drop(Roots(done) + Roots(rest), rest[i].id) == Roots(done) + Roots(Without(rest, i))
  {
    var kids := Roots(done) + Roots(rest);
    assert kids[|done| + i] == rest[i].id;
    DropAt(kids, |done| + i);
  }

  lemma PutAfterDone(done: seq<Node>, rest: seq<Node>, x: nat)
    requires rest != [] && Distinct(Roots(done) + Roots(rest))
    ensures PutBefore(Roots(done) + Roots(rest), x, Some(rest[0].id)) == Roots(done) + [x] + Roots(rest)
  {
    var kids := Roots(done) + Roots(rest);
    assert kids[|done|..] == Roots(rest);
    PutBeforeAt(kids, x, |done|);
  }

  lemma MovedBag(rest: seq<Node>, i: nat)
    requires i < |rest|
    ensures BagAll([rest[i]] + Without(rest, i)) == BagAll(rest)
  {
    BagAllWithout(rest, i);
    assert ([rest[i]] + Without(rest, i))[1..] == Without(rest, i);
  }

  lemma MovedPlan(rest: seq<Node>, want: seq<Node>, i: nat)
    requires want != [] && 0 < i < |rest| && Hit(rest, want[0]) == i
    ensures Hit([rest[i]] + Without(rest, i), want[0]) == 0
    ensures MorphKids([rest[i]] + Without(rest, i), want) == MorphKids(rest, want)
  {
    assert Key(want[0]).Some?;
    assert Without([rest[i]] + Without(rest, i), 0) == Without(rest, i);
  }

  lemma ForestLists(nodes: Nodes, p: nat)
    requires Forest(nodes) && p in nodes
    ensures Distinct(nodes[p].kids)
    ensures forall q, x :: q in nodes && q != p && x in nodes[q].kids ==> x !in nodes[p].kids
  {}

  lemma PlanPatched(done: seq<Node>, rest: seq<Node>, want: seq<Node>)
    requires want != [] && rest != [] && Hit(rest, want[0]) == 0
    ensures done + [MorphNode(rest[0], want[0])] + MorphKids(rest[1..], want[1..]) == done + MorphKids(rest, want)
  {
    assert Without(rest, 0) == rest[1..];
    hide Hit, MorphNode, Without;
  }

  lemma PlanInserted(done: seq<Node>, rest: seq<Node>, want: seq<Node>)
    requires want != [] && Hit(rest, want[0]) == |rest|
    ensures done + [want[0]] + MorphKids(rest, want[1..]) == done + MorphKids(rest, want)
  {}

  lemma PlanRemoved(rest: seq<Node>)
    requires rest != []
    ensures MorphKids(rest, []) == MorphKids(rest[1..], [])
  {}

  lemma BagAppend(done: seq<Node>, n: Node)
    ensures BagAll(done + [n]) == BagAll(done) + Bag(n)
  {
    BagAllConcat(done, [n]);
    assert BagAll([n]) == Bag(n);
  }

  // The keyed node found further on is moved in front of `cur`.
  lemma MoveStep(start: Nodes, nodes: Nodes, ta: Node, tb: Node,
                 done: seq<Node>, rest: seq<Node>, want: seq<Node>, i: nat)
    requires Working(start, nodes, ta, tb, done, rest, want) && Unique(Bag(ta) + Bag(tb))
    requires want != [] && 0 < i < |rest| && Hit(rest, want[0]) == i
    ensures Working(start, Inserted(nodes, ta.id, rest[i].id, Some(rest[0].id)), ta, tb,
                    done, [rest[i]] + Without(rest, i), want)
    ensures Hit([rest[i]] + Without(rest, i), want[0]) == 0
  {
    hide Forest, Holds, Bag, BagAll, MorphKids, MorphNode, Hit, Key, Unique, Distinct, Inserted, Detached, Drop, PutBefore;
    var x, rest' := rest[i].id, [rest[i]] + Without(rest, i);
    var after := Inserted(nodes, ta.id, x, Some(rest[0].id));
    assert nodes[ta.id].kids[|done| + i] == x;
    ForestLists(nodes, ta.id);
    MovedKids(done, rest, i);
    MovedBag(rest, i);
    MovedPlan(rest, want, i);
    InsertedEffect(nodes, ta.id, x, Some(rest[0].id), ta.id);
    InsertedForest(nodes, ta.id, x, Some(rest[0].id));
    Apart(ta.id, tb.id, BagAll(done), BagAll(rest), BagAll(want), Bag(ta) + Bag(tb));
    TreesKept(nodes, after, ta.id, tb.id, done, rest, want, Bag(ta) + Bag(tb));
  }

  // `cur` itself was patched for the next template node.
  lemma PatchStep(start: Nodes, nodes: Nodes, after: Nodes, ta: Node, tb: Node,
                  done: seq<Node>, rest: seq<Node>, want: seq<Node>)
    requires Working(start, nodes, ta, tb, done, rest, want) && Unique(Bag(ta) + Bag(tb))
    requires want != [] && rest != [] && Hit(rest, want[0]) == 0
    requires Forest(after) && after.Keys == nodes.Keys
    requires Holds(after, MorphNode(rest[0], want[0]))
    requires Outside(nodes, after, Bag(rest[0]) + Bag(want[0]))
    ensures Working(start, after, ta, tb, done + [MorphNode(rest[0], want[0])], rest[1..], want[1..])
  {
    hide Forest, Holds, Bag, BagAll, MorphKids, MorphNode, Hit, Key, Unique, Distinct, Inserted, Detached, Drop, PutBefore,
      HoldsAll, Roots, Outside;
    var n, all := MorphNode(rest[0], want[0]), Bag(ta) + Bag(tb);
    var hit, d, r, w := Bag(rest[0]) + Bag(want[0]), BagAll(done), BagAll(rest[1..]), BagAll(want[1..]);
    BagAllHead(rest);
    BagAllHead(want);
    Regroup(multiset{ta.id, tb.id} + d, Bag(rest[0]), r, Bag(want[0]), w);
    PatchApart(ta.id, tb.id, d, r, w, hit, all);
    OutsideAt(nodes, after, hit, ta.id);
    OutsideAt(nodes, after, hit, tb.id);
    OutsideChain(start, nodes, after, all, hit);
    HoldsAllTail(nodes, rest);
    HoldsAllTail(nodes, want);
    HoldsAllOutside(nodes, after, hit, done);
    HoldsAllOutside(nodes, after, hit, rest[1..]);
    HoldsAllOutside(nodes, after, hit, want[1..]);
    MorphNodeShows(rest[0], want[0]);
    MorphNodeBag(rest[0], want[0]);
    HoldsAllMore(after, done, n);
    BagAppend(done, n);
    PatchBags(ta.id, tb.id, d, r, w, hit, Bag(n), all);
    PatchedRoots(done, rest, n);
    PlanPatched(done, rest, want);
  }

  lemma WorkingFacts(start: Nodes, nodes: Nodes, ta: Node, tb: Node, done: seq<Node>, rest: seq<Node>, want: seq<Node>)
    requires Working(start, nodes, ta, tb, done, rest, want)
    ensures Forest(nodes) && ta.id in nodes && tb.id in nodes && nodes[ta.id].kids == Roots(done) + Roots(rest)
    ensures HoldsAll(nodes, rest) && HoldsAll(nodes, want)
  {}

  lemma OutsideAt(before: Nodes, after: Nodes, bag: multiset<nat>, x: nat)
    requires Outside(before, after, bag) && x in before && x !in bag
    ensures x in after && after[x] == before[x]
  {}

  lemma OutsideChain(start: Nodes, nodes: Nodes, after: Nodes, all: multiset<nat>, hit: multiset<nat>)
    requires Outside(start, nodes, all) && Outside(nodes, after, hit) && forall y :: y in hit ==> y in all
    ensures Outside(start, after, all)
  {}

  lemma HoldsAllOutside(before: Nodes, after: Nodes, hit: multiset<nat>, s: seq<Node>)
    requires HoldsAll(before, s) && Outside(before, after, hit) && forall y :: y in hit ==> y !in BagAll(s)
    ensures HoldsAll(after, s)
  {
    HoldsAllFrame(before, after, s);
  }

  lemma HoldsAllTail(nodes: Nodes, s: seq<Node>)
    requires HoldsAll(nodes, s) && s != []
    ensures HoldsAll(nodes, s[1..])
  {}

  lemma HoldsAllMore(nodes: Nodes, s: seq<Node>, n: Node)
    requires HoldsAll(nodes, s) && Holds(nodes, n)
    ensures HoldsAll(nodes, s + [n])
  {}

  lemma Regroup(x: multiset<nat>, p: multiset<nat>, r: multiset<nat>, q: multiset<nat>, w: multiset<nat>)
    ensures x + (p + r) + (q + w) == x + r + w + (p + q)
  {}

  lemma PatchedRoots(done: seq<Node>, rest: seq<Node>, n: Node)
    requires rest != [] && n.id == rest[0].id
    ensures Roots(done + [n]) + Roots(rest[1..]) == Roots(done) + Roots(rest)
  {}

  lemma PatchApart(a: nat, b: nat, d: multiset<nat>, r: multiset<nat>, w: multiset<nat>,
                   hit: multiset<nat>, all: multiset<nat>)
    requires Unique(all) && multiset{a, b} + d + r + w + hit <= all
    ensures a !in hit && b !in hit
    ensures forall y :: y in hit ==> y !in d && y !in r && y !in w && y in all
  {
    Apart(a, b, d + r, w, hit, all);
  }

  lemma PatchBags(a: nat, b: nat, d: multiset<nat>, r: multiset<nat>, w: multiset<nat>,
                  hit: multiset<nat>, n: multiset<nat>, all: multiset<nat>)
    requires multiset{a, b} + d + r + w + hit <= all && n <= hit
    ensures multiset{a, b} + (d + n) + r + w <= all
  {}

  // The template node itself was inserted before `cur`.
  lemma InsertStep(start: Nodes, nodes: Nodes, ta: Node, tb: Node,
                   done: seq<Node>, rest: seq<Node>, want: seq<Node>)
    requires Working(start, nodes, ta, tb, done, rest, want) && Unique(Bag(ta) + Bag(tb))
    requires want != [] && Hit(rest, want[0]) == |rest|
    ensures Working(start, Inserted(nodes, ta.id, want[0].id, First(Roots(rest))), ta, tb,
                    done + [want[0]], rest, want[1..])
  {
    hide Forest, Holds, Bag, BagAll, MorphKids, MorphNode, Hit, Key, Unique, Distinct, Inserted, Detached, Drop, PutBefore;
    var x, nb, all := want[0].id, want[0], Bag(ta) + Bag(tb);
    var before := First(Roots(rest));
    var after := Inserted(nodes, ta.id, x, before);
    Apart(ta.id, tb.id, BagAll(done), BagAll(rest), BagAll(want), all);
    ForestLists(nodes, ta.id);
    ForestLists(nodes, tb.id);
    assert x in nodes[tb.id].kids && x !in nodes[ta.id].kids;
    InsertedKids(done, rest, nb);
    InsertedEffect(nodes, ta.id, x, before, tb.id);
    InsertedForest(nodes, ta.id, x, before);
    TreesKept(nodes, after, ta.id, tb.id, done, rest, want, all);
    BagAppend(done, nb);
    BagAllHead(want);
    StillInTemplate(nodes[tb.id].kids, want, all);
    PlanInserted(done, rest, want);
  }

  lemma InsertedKids(done: seq<Node>, rest: seq<Node>, nb: Node)
    requires Distinct(Roots(done) + Roots(rest)) && nb.id !in Roots(done) + Roots(rest)
    ensures var kids := Roots(done) + Roots(rest);
            PutBefore(Drop(kids, nb.id), nb.id, First(Roots(rest))) == Roots(done + [nb]) + Roots(rest)
  {
    var kids := Roots(done) + Roots(rest);
    assert kids[|done|..] == Roots(rest);
    PutBeforeAt(kids, nb.id, |done|);
    assert kids[..|done|] + [nb.id] + Roots(rest) == Roots(done + [nb]) + Roots(rest);
  }

  lemma StillInTemplate(kids: seq<nat>, want: seq<Node>, all: multiset<nat>)
    requires want != [] && Distinct(kids) && Unique(all) && BagAll(want) <= all
    requires forall j :: 0 <= j < |want| ==> want[j].id in kids
    ensures forall j :: 0 <= j < |want[1..]| ==> want[1..][j].id in Drop(kids, want[0].id)
  {
    DropKeepsOthers(kids, want[0].id);
    forall j | 0 <= j < |want[1..]|
      ensures want[1..][j].id in Drop(kids, want[0].id)
    {
      RootInBag(want[1..], j);
      assert want[1..][j] == want[j + 1];
      assert BagAll(want)[want[0].id] == Bag(want[0])[want[0].id] + BagAll(want[1..])[want[0].id];
      assert all[want[0].id] <= 1;
    }
  }

  // A live child nothing asked for is removed.
  lemma RemoveStep(start: Nodes, nodes: Nodes, ta: Node, tb: Node, done: seq<Node>, rest: seq<Node>)
    requires Working(start, nodes, ta, tb, done, rest, []) && Unique(Bag(ta) + Bag(tb)) && rest != []
    ensures Working(start, nodes[ta.id := nodes[ta.id].(kids := Drop(nodes[ta.id].kids, rest[0].id))],
                    ta, tb, done, rest[1..], [])
  {
    hide Forest, Holds, Bag, BagAll, MorphKids, MorphNode, Unique, Distinct, Drop;
    var kids := nodes[ta.id].kids;
    var after := nodes[ta.id := nodes[ta.id].(kids := Drop(kids, rest[0].id))];
    ForestLists(nodes, ta.id);
    DroppedAt(done, rest, 0);
    assert Without(rest, 0) == rest[1..];
    DetachedForest(nodes, ta.id, rest[0].id);
    TreesKept(nodes, after, ta.id, tb.id, done, rest, [], Bag(ta) + Bag(tb));
    Apart(ta.id, tb.id, BagAll(done), BagAll(rest), BagAll([]), Bag(ta) + Bag(tb));
    PlanRemoved(rest);
    BagAllHead(rest);
    BagShrink(multiset{ta.id, tb.id} + BagAll(done), Bag(rest[0]), BagAll(rest[1..]), BagAll([]), Bag(ta) + Bag(tb));
  }

  lemma BagShrink(x: multiset<nat>, p: multiset<nat>, r: multiset<nat>, w: multiset<nat>, all: multiset<nat>)
    requires x + (p + r) + w <= all
    ensures x + r + w <= all
  {}

  lemma NextOfRest(done: seq<Node>, rest: seq<Node>)
    requires rest != [] && Distinct(Roots(done) + Roots(rest))
    ensures Next(Roots(done) + Roots(rest), rest[0].id) == First(Roots(rest[1..]))
  {
    var kids := Roots(done) + Roots(rest);
    assert kids[|done|] == rest[0].id;
    NextAt(kids, |done|);
    assert kids[|done| + 1..] == Roots(rest[1..]);
  }

  class Document {
    var nodes: Nodes

    constructor (initial: Nodes)
      ensures nodes == initial
    {
      nodes := initial;
    }

    // Takes `x` from wherever it is and puts it before `before`, or last.
    method InsertBefore(parent: nat, x: nat, before: Option<nat>)
      requires parent in nodes
      modifies this
      ensures nodes == Inserted(old(nodes), parent, x, before)
    {
      nodes := Detached(nodes, x);
      nodes := nodes[parent := nodes[parent].(kids := PutBefore(nodes[parent].kids, x, before))];
    }

    method RemoveChild(parent: nat, x: nat)
      requires parent in nodes
      modifies this
      ensures nodes == old(nodes)[parent := old(nodes)[parent].(kids := Drop(old(nodes)[parent].kids, x))]
    {
      nodes := nodes[parent := nodes[parent].(kids := Drop(nodes[parent].kids, x))];
    }

    // False for a node that is not there.
    predicate HasKey(x: nat, key: string, name: string)
      reads this
    {
      && x in nodes && nodes[x].nodeType == 1
      && "data-k" in nodes[x].attrs && nodes[x].attrs["data-k"] == key
      && nodes[x].name == name
    }

    method MorphChildren(a: nat, b: nat, ghost ta: Node, ghost tb: Node)
      requires Forest(nodes) && Unique(Bag(ta) + Bag(tb))
      requires ta.Element? && tb.Element? && ta.id == a && tb.id == b
      requires Holds(nodes, ta) && Holds(nodes, tb)
      modifies this
      ensures Holds(nodes, ta.(kids := MorphKids(ta.kids, tb.kids)))
      ensures Forest(nodes) && nodes.Keys == old(nodes).Keys
      ensures Outside(old(nodes), nodes, Bag(ta) + Bag(tb))
      decreases tb, 0
    {
      hide Forest, Bag, BagAll, MorphKids, MorphNode, Unique, Distinct, Inserted, Detached, FindKeyed, Working, Outside;
      ghost var done, rest, want := [], ta.kids, tb.kids;
      StartWorking(nodes, ta, tb);
      var cur := First(nodes[a].kids);
      var template, i := nodes[b].kids, 0;
      while i < |template|
        invariant 0 <= i <= |template| && template == Roots(tb.kids) && want == tb.kids[i..]
        invariant Working(old(nodes), nodes, ta, tb, done, rest, want)
        invariant cur == First(Roots(rest))
      {
        var nb := template[i];
        WorkingFacts(old(nodes), nodes, ta, tb, done, rest, want);
        assert want[0] == tb.kids[i] && nb == want[0].id && want[1..] == tb.kids[i + 1..];
        assert Holds(nodes, want[0]);
        assert forall j :: 0 <= j < |rest| ==> Holds(nodes, rest[j]);
        var d := nodes[nb];
        if d.nodeType == 1 && "data-k" in d.attrs {
          ForestLists(nodes, a);
          ghost var at;
          var hit;
          hit, at := NextKeyed(a, cur, d.attrs["data-k"], d.name, done, rest);
          if hit != None {
            assert hit.value == rest[at].id;
            if hit != cur {
              MoveStep(old(nodes), nodes, ta, tb, done, rest, want, at);
              InsertBefore(a, hit.value, cur);
              rest := [rest[at]] + Without(rest, at);
            }
            assert hit.value == rest[0].id && Hit(rest, want[0]) == 0;
            cur := Patch(a, hit.value, nb, old(nodes), ta, tb, done, rest, want);
            done, rest := done + [MorphNode(rest[0], want[0])], rest[1..];
          } else {
            InsertStep(old(nodes), nodes, ta, tb, done, rest, want);
            InsertBefore(a, nb, cur);
            done := done + [want[0]];
          }
        } else if cur != None && nodes[cur.value].nodeType == d.nodeType && nodes[cur.value].name == d.name &&
                  !(nodes[cur.value].nodeType == 1 && "data-k" in nodes[cur.value].attrs) {
          assert cur.value == rest[0].id;
          assert Hit(rest, want[0]) == 0;
          cur := Patch(a, cur.value, nb, old(nodes), ta, tb, done, rest, want);
          done, rest := done + [MorphNode(rest[0], want[0])], rest[1..];
        } else {
          InsertStep(old(nodes), nodes, ta, tb, done, rest, want);
          InsertBefore(a, nb, cur);
          done := done + [want[0]];
        }
        want := want[1..];
        i := i + 1;
      }
      while cur != None
        invariant want == [] && Working(old(nodes), nodes, ta, tb, done, rest, [])
        invariant cur == First(Roots(rest))
        decreases |rest|
      {
        WorkingFacts(old(nodes), nodes, ta, tb, done, rest, []);
        ForestLists(nodes, a);
        NextOfRest(done, rest);
        var n := Next(nodes[a].kids, cur.value);
        RemoveStep(old(nodes), nodes, ta, tb, done, rest);
        RemoveChild(a, cur.value);
        cur := n;
        rest := rest[1..];
      }
      EndWorking(old(nodes), nodes, ta, tb, done);
    }

    // The first sibling from `cur` on with that key and element name.
    method NextKeyed(a: nat, cur: Option<nat>, key: string, name: string, ghost done: seq<Node>, ghost rest: seq<Node>)
      returns (hit: Option<nat>, ghost at: nat)
      requires a in nodes && nodes[a].kids == Roots(done) + Roots(rest) && Distinct(nodes[a].kids)
      requires HoldsAll(nodes, rest) && cur == First(Roots(rest))
      ensures at == FindKeyed(rest, key, name) && hit == First(Roots(rest)[FindKeyed(rest, key, name)..])
    {
      hit, at := cur, 0;
      while hit != None && !HasKey(hit.value, key, name)
        invariant 0 <= at <= |rest| && hit == First(Roots(rest)[at..])
        invariant forall j :: 0 <= j < at ==> !KeyedAs(rest[j], key, name)
        decreases |rest| - at
      {
        assert hit.value == rest[at].id && nodes[a].kids[|done| + at] == rest[at].id;
        NextAt(nodes[a].kids, |done| + at);
        assert nodes[a].kids[|done| + at + 1..] == Roots(rest)[at + 1..];
        hit := Next(nodes[a].kids, hit.value);
        at := at + 1;
      }
      assert at < |rest| ==> hit == Some(rest[at].id) && Holds(nodes, rest[at]);
      FindKeyedIs(rest, key, name, at);
    }

    // `morphNode(hit, nb); cur = hit.nextSibling`, the hit standing where `cur` was.
    method Patch(a: nat, hit: nat, nb: nat, ghost start: Nodes, ghost ta: Node, ghost tb: Node,
                 ghost done: seq<Node>, ghost rest: seq<Node>, ghost want: seq<Node>)
      returns (cur: Option<nat>)
      requires Unique(Bag(ta) + Bag(tb)) && ta.id == a
      requires Working(start, nodes, ta, tb, done, rest, want)
      requires want != [] && rest != [] && Hit(rest, want[0]) == 0 && hit == rest[0].id && nb == want[0].id
      requires want[0] in tb.kids && tb.Element?
      modifies this
      ensures Working(start, nodes, ta, tb, done + [MorphNode(rest[0], want[0])], rest[1..], want[1..])
      ensures cur == First(Roots(rest[1..]))
      decreases want[0], 2
    {
      Apart(ta.id, tb.id, BagAll(done), BagAll(rest), BagAll(want), Bag(ta) + Bag(tb));
      UniquePart(Bag(rest[0]) + Bag(want[0]), Bag(ta) + Bag(tb),
                 multiset{ta.id, tb.id} + BagAll(done) + BagAll(rest[1..]) + BagAll(want[1..]));
      ghost var before := nodes;
      assert Holds(nodes, rest[0]) && Holds(nodes, want[0]);
      MorphNodeInPlace(hit, nb, rest[0], want[0]);
      PatchStep(start, before, nodes, ta, tb, done, rest, want);
      ghost var n := MorphNode(rest[0], want[0]);
      MorphNodeShows(rest[0], want[0]);
      assert nodes[a].kids == Roots(done + [n]) + Roots(rest[1..]);
      assert nodes[a].kids[|done|] == hit;
      NextAt(nodes[a].kids, |done|);
      assert nodes[a].kids[|done| + 1..] == Roots(rest[1..]);
      cur := Next(nodes[a].kids, hit);
    }

    method MorphNodeInPlace(a: nat, b: nat, ghost ta: Node, ghost tb: Node)
      requires Forest(nodes) && Unique(Bag(ta) + Bag(tb))
      requires ta.id == a && tb.id == b && SameKind(ta, tb)
      requires Holds(nodes, ta) && Holds(nodes, tb)
      modifies this
      ensures Holds(nodes, MorphNode(ta, tb))
      ensures Forest(nodes) && nodes.Keys == old(nodes).Keys
      ensures Outside(old(nodes), nodes, Bag(ta) + Bag(tb))
      decreases tb, 1
    {
      BagsApart(Bag(ta), Bag(tb));
      if nodes[a].nodeType != 1 {
        if nodes[a].value != nodes[b].value {
          nodes := nodes[a := nodes[a].(value := nodes[b].value)];
        }
        return;
      }
      PatchAttributes(a, b);
      ghost var patched := ta.(attrs := tb.attrs);
      AttributesFrame(old(nodes), nodes, ta, tb);
      if nodes[a].name == "INPUT" || nodes[a].name == "TEXTAREA" || nodes[a].name == "SELECT" {
        return;
      }
      MorphChildren(a, b, patched, tb);
    }

    // The two attribute loops: stale names go, differing values are set.
    method PatchAttributes(a: nat, b: nat)
      requires a in nodes && b in nodes && a != b
      modifies this
      ensures nodes == old(nodes)[a := old(nodes)[a].(attrs := old(nodes)[b].attrs)]
    {
      var names := nodes[a].attrs.Keys;
      while names != {}
        invariant names <= old(nodes)[a].attrs.Keys
        invariant a in nodes && nodes == old(nodes)[a := old(nodes)[a].(attrs := nodes[a].attrs)]
        invariant forall n :: n in nodes[a].attrs <==> n in old(nodes)[a].attrs && (n in names || n in nodes[b].attrs)
        decreases names
      {
        var n :| n in names;
        if n !in nodes[b].attrs {
          nodes := nodes[a := nodes[a].(attrs := nodes[a].attrs - {n})];
        }
        names := names - {n};
      }
      names := nodes[b].attrs.Keys;
      while names != {}
        invariant b in nodes && names <= nodes[b].attrs.Keys
        invariant a in nodes && nodes == old(nodes)[a := old(nodes)[a].(attrs := nodes[a].attrs)]
        invariant forall n :: n in nodes[a].attrs ==> n in nodes[b].attrs
        invariant forall n :: n in nodes[b].attrs && n !in names ==>
                    n in nodes[a].attrs && nodes[a].attrs[n] == nodes[b].attrs[n]
        decreases names
      {
        var n :| n in names;
        if n !in nodes[a].attrs || nodes[a].attrs[n] != nodes[b].attrs[n] {
          nodes := nodes[a := nodes[a].(attrs := nodes[a].attrs[n := nodes[b].attrs[n]])];
        }
        names := names - {n};
      }
      assert nodes[a].attrs == nodes[b].attrs;
    }
  }

  lemma {:induction false} FindKeyedIs(rest: seq<Node>, key: string, name: string, at: nat)
    requires at <= |rest| && forall j :: 0 <= j < at ==> !KeyedAs(rest[j], key, name)
    requires at < |rest| ==> KeyedAs(rest[at], key, name)
    ensures FindKeyed(rest, key, name) == at
  {}

  lemma UniquePart(part: multiset<nat>, all: multiset<nat>, others: multiset<nat>)
    requires Unique(all) && part + others <= all
    ensures Unique(part)
  {
    assert forall x :: part[x] <= (part + others)[x] <= all[x];
  }

  lemma BagsApart(p: multiset<nat>, q: multiset<nat>)
    requires Unique(p + q)
    ensures forall x :: x in p ==> p[x] == 1 && x !in q
  {
    assert forall x :: p[x] + q[x] == (p + q)[x] <= 1;
  }

  lemma AttributesFrame(before: Nodes, after: Nodes, ta: Node, tb: Node)
    requires Forest(before) && Unique(Bag(ta) + Bag(tb)) && ta.Element? && tb.Element?
    requires Holds(before, ta) && Holds(before, tb)
    requires after == before[ta.id := before[ta.id].(attrs := tb.attrs)]
    ensures Forest(after)
    ensures var patched := ta.(attrs := tb.attrs);
            Bag(patched) == Bag(ta) && Holds(after, patched) && Holds(after, tb)
  {
    hide Unique, BagAll;
    BagsApart(Bag(ta), Bag(tb));
    assert Bag(ta)[ta.id] == 1 + BagAll(ta.kids)[ta.id];
    SameListsForest(before, after);
    HoldsAllFrame(before, after, ta.kids);
    HoldsFrame(before, after, tb);
  }

  lemma SameListsForest(before: Nodes, after: Nodes)
    requires Forest(before) && after.Keys == before.Keys
    requires forall p :: p in after ==> after[p].kids == before[p].kids
    ensures Forest(after)
  {}
}
