// What `morph` of the kitchen cards makes of a live tree and a freshly parsed
// one: `morphChildren` and `morphNode` as functions on trees whose nodes carry
// their identity. MorphDom.dfy runs the in-place version on a mutable document.

module Morph {
  import opened Options

  // An element, or a text/comment node (`nodeType` other than 1).
  datatype Node =
    | Element(id: nat, name: string, attrs: map<string, string>, kids: seq<Node>)
    | Leaf(id: nat, nodeType: nat, name: string, value: string)

  function Key(n: Node): Option<string> {
    if n.Element? && "data-k" in n.attrs then Some(n.attrs["data-k"]) else None
  }

  predicate KeyedAs(n: Node, key: string, name: string) {
    Key(n) == Some(key) && n.name == name
  }

  predicate IsFormControl(name: string) {
    name == "INPUT" || name == "TEXTAREA" || name == "SELECT"
  }

  predicate SameKind(a: Node, b: Node) {
    && a.Element? == b.Element?
    && (a.Leaf? ==> a.nodeType == b.nodeType)
    && a.name == b.name
  }

  // First sibling from `rest[0]` on that carries the key, or |rest|.
  function FindKeyed(rest: seq<Node>, key: string, name: string): (i: nat)
    ensures i <= |rest|
    ensures i < |rest| ==> KeyedAs(rest[i], key, name)
    ensures forall j :: 0 <= j < i ==> !KeyedAs(rest[j], key, name)
  {
    if rest == [] || KeyedAs(rest[0], key, name) then 0 else 1 + FindKeyed(rest[1..], key, name)
  }

  function Without<T>(s: seq<T>, i: nat): seq<T>
    requires i < |s|
  {
    s[..i] + s[i + 1..]
  }

  // Index in `rest` of the live node that is patched for `nb`; |rest| when `nb` itself goes in.
  function Hit(rest: seq<Node>, nb: Node): (i: nat)
    ensures i <= |rest|
    ensures i < |rest| ==> SameKind(rest[i], nb)
  {
    match Key(nb)
    case Some(key) => FindKeyed(rest, key, nb.name)
    case None =>
      if rest != [] && SameKind(rest[0], nb) && Key(rest[0]) == None then 0 else |rest|
  }

  // `morphChildren`: `rest` are the live children from `cur` on.
  function MorphKids(rest: seq<Node>, want: seq<Node>): seq<Node>
    decreases want
  {
    if want == [] then []
    else
      var i := Hit(rest, want[0]);
      if i < |rest| then
        [MorphNode(rest[i], want[0])] + MorphKids(Without(rest, i), want[1..])
      else
        [want[0]] + MorphKids(rest, want[1..])
  }

  // `morphNode`
  function MorphNode(a: Node, b: Node): Node
    requires SameKind(a, b)
    decreases b
  {
    if a.Leaf? then a.(value := b.value)
    else if IsFormControl(a.name) then a.(attrs := b.attrs)
    else a.(attrs := b.attrs, kids := MorphKids(a.kids, b.kids))
  }

  // ---- the patched tree shows what was wanted

  // Equal trees up to identity and to what is inside inputs, text areas and selects.
  ghost predicate Shows(n: Node, want: Node)
    decreases want
  {
    match want
    case Leaf(_, nodeType, name, value) => n.Leaf? && n.nodeType == nodeType && n.name == name && n.value == value
    case Element(_, name, attrs, kids) =>
      && n.Element? && n.name == name && n.attrs == attrs
      && (name == "INPUT" || name == "TEXTAREA" || name == "SELECT" || AllShow(n.kids, kids))
  }

  ghost predicate AllShow(s: seq<Node>, want: seq<Node>)
    decreases want
  {
    |s| == |want| && forall i :: 0 <= i < |want| ==> Shows(s[i], want[i])
  }

  lemma {:induction false} ShowsItself(n: Node)
    ensures Shows(n, n)
  {
    if n.Element? {
      forall i | 0 <= i < |n.kids|
        ensures Shows(n.kids[i], n.kids[i])
      {
        ShowsItself(n.kids[i]);
      }
    }
  }

  lemma {:induction false} MorphKidsShow(rest: seq<Node>, want: seq<Node>)
    ensures AllShow(MorphKids(rest, want), want)
    decreases want
  {
    if want != [] {
      var i := Hit(rest, want[0]);
      if i < |rest| {
        MorphNodeShows(rest[i], want[0]);
        MorphKidsShow(Without(rest, i), want[1..]);
      } else {
        ShowsItself(want[0]);
        MorphKidsShow(rest, want[1..]);
      }
    }
  }

  lemma {:induction false} MorphNodeShows(a: Node, b: Node)
    requires SameKind(a, b)
    ensures Shows(MorphNode(a, b), b)
    ensures MorphNode(a, b).id == a.id
    decreases b
  {
    if a.Element? && !IsFormControl(a.name) {
      MorphKidsShow(a.kids, b.kids);
    }
  }

  // What is inside those three stays as it was, identities included; of any other
  // element the children are patched, and show the wanted ones.
  lemma TypingIsKept(a: Node, b: Node)
    requires a.Element? && b.Element? && a.name == b.name
    ensures a.name == "INPUT" || a.name == "TEXTAREA" || a.name == "SELECT" ==> MorphNode(a, b).kids == a.kids
    ensures a.name != "INPUT" && a.name != "TEXTAREA" && a.name != "SELECT" ==>
              MorphNode(a, b).kids == MorphKids(a.kids, b.kids) && AllShow(MorphNode(a, b).kids, b.kids)
  {
    MorphKidsShow(a.kids, b.kids);
  }

  // ---- identity

  ghost predicate Carries(n: Node, key: string, name: string) {
    n.Element? && n.name == name && "data-k" in n.attrs && n.attrs["data-k"] == key
  }

  // Of one kind and name, with the same key or none.
  ghost predicate Alike(a: Node, b: Node) {
    && a.name == b.name
    && match a
       case Leaf(_, nodeType, _, _) => b.Leaf? && nodeType == b.nodeType
       case Element(_, _, attrs, _) =>
         && b.Element? && ("data-k" in attrs <==> "data-k" in b.attrs)
         && ("data-k" in attrs ==> attrs["data-k"] == b.attrs["data-k"])
  }

  // Where live and wanted children are alike, each is patched where it is,
  // whatever else changes in it.
  lemma {:induction false} AlikeStayPut(live: seq<Node>, want: seq<Node>)
    requires |live| == |want| && forall i :: 0 <= i < |want| ==> Alike(live[i], want[i])
    ensures |MorphKids(live, want)| == |want|
    ensures forall i :: 0 <= i < |want| ==> SameKind(live[i], want[i]) && MorphKids(live, want)[i] == MorphNode(live[i], want[i])
    ensures forall i :: 0 <= i < |want| ==> MorphKids(live, want)[i].id == live[i].id
    decreases want
  {
    hide Alike, MorphNode, MorphKids, SameKind;
    if want == [] {
      NoKids(live);
    } else {
      AlikeFirst(live, want);
      AlikeStayPut(live[1..], want[1..]);
    }
  }

  // The live children left for the second wanted child, and whether the first is new.
  function Rest(live: seq<Node>, nb: Node): (rest: seq<Node>)
    ensures forall n :: n in rest ==> n in live
  {
    var i := Hit(live, nb);
    if i < |live| then Without(live, i) else live
  }

  lemma MorphKidsHead(live: seq<Node>, want: seq<Node>)
    requires want != []
    ensures |MorphKids(live, want)| == 1 + |MorphKids(Rest(live, want[0]), want[1..])|
    ensures MorphKids(live, want)[1..] == MorphKids(Rest(live, want[0]), want[1..])
    ensures (forall n :: n in live ==> !Alike(n, want[0])) ==> MorphKids(live, want)[0] == want[0]
  {
    var i := Hit(live, want[0]);
    if i < |live| {
      assert live[i] in live && Alike(live[i], want[0]);
    }
  }

  // What is like no live child is a new node: an element with a new key, say.
  lemma {:induction false} UnlikeIsNew(live: seq<Node>, want: seq<Node>, at: nat)
    requires at < |want| && forall n :: n in live ==> !Alike(n, want[at])
    ensures |MorphKids(live, want)| == |want| && MorphKids(live, want)[at] == want[at]
    decreases want
  {
    hide Alike, MorphKids, Rest;
    MorphKidsShow(live, want);
    MorphKidsHead(live, want);
    if at > 0 {
      UnlikeIsNew(Rest(live, want[0]), want[1..], at - 1);
      assert MorphKids(live, want)[at] == MorphKids(live, want)[1..][at - 1];
    }
  }

  lemma NoKids(live: seq<Node>)
    ensures MorphKids(live, []) == []
  {}

  lemma AlikeFirst(live: seq<Node>, want: seq<Node>)
    requires live != [] && want != [] && Alike(live[0], want[0])
    ensures SameKind(live[0], want[0]) && MorphNode(live[0], want[0]).id == live[0].id
    ensures MorphKids(live, want) == [MorphNode(live[0], want[0])] + MorphKids(live[1..], want[1..])
  {
    assert Key(live[0]) == Key(want[0]);
    assert Hit(live, want[0]) == 0;
    assert Without(live, 0) == live[1..];
  }

  ghost predicate OccursOnce(s: seq<Node>, key: string, name: string, at: nat) {
    && at < |s| && Carries(s[at], key, name)
    && forall j :: 0 <= j < |s| && Carries(s[j], key, name) ==> j == at
  }

  // A keyed child that is alone under its key and element name on both sides
  // is the very node shown at its new place, wherever that is.
  lemma {:induction false} KeyedChildKept(live: seq<Node>, want: seq<Node>, key: string, name: string, from: nat, at: nat)
    requires OccursOnce(live, key, name, from) && OccursOnce(want, key, name, at)
    ensures |MorphKids(live, want)| == |want|
    ensures MorphKids(live, want)[at] == MorphNode(live[from], want[at])
    ensures MorphKids(live, want)[at].id == live[from].id
    decreases want
  {
    MorphKidsShow(live, want);
    var nb, i := want[0], Hit(live, want[0]);
    if at == 0 {
      assert i == from;
      MorphNodeShows(live[from], nb);
    } else {
      assert !KeyedAs(nb, key, name);
      assert OccursOnce(want[1..], key, name, at - 1) by {
        assert forall j :: 0 <= j < |want[1..]| ==> want[1..][j] == want[j + 1];
      }
      if i < |live| {
        assert i != from;
        var rest := Without(live, i);
        var from' := if i < from then from - 1 else from;
        assert rest[from'] == live[from];
        assert forall j :: 0 <= j < |rest| ==> rest[j] == live[if j < i then j else j + 1];
        assert OccursOnce(rest, key, name, from');
        KeyedChildKept(rest, want[1..], key, name, from', at - 1);
      } else {
        KeyedChildKept(live, want[1..], key, name, from, at - 1);
      }
    }
  }

  // Patching in a tree that is already shown changes nothing at all.
  lemma {:induction false} UnchangedStaysPut(live: seq<Node>, want: seq<Node>)
    requires AllShow(live, want)
    ensures MorphKids(live, want) == live
    decreases want
  {
    if want != [] {
      assert Key(live[0]) == Key(want[0]);
      assert Hit(live, want[0]) == 0;
      UnchangedNodeStaysPut(live[0], want[0]);
      assert Without(live, 0) == live[1..];
      UnchangedStaysPut(live[1..], want[1..]);
    }
  }

  lemma {:induction false} UnchangedNodeStaysPut(a: Node, b: Node)
    requires Shows(a, b)
    ensures MorphNode(a, b) == a
    decreases b
  {
    if a.Element? && !IsFormControl(a.name) {
      UnchangedStaysPut(a.kids, b.kids);
    }
  }

  // So rendering the same HTML a second time touches nothing.
  lemma MorphTwiceIsOnce(live: seq<Node>, want: seq<Node>, again: seq<Node>)
    requires AllShow(want, again)
    ensures MorphKids(MorphKids(live, want), again) == MorphKids(live, want)
  {
    MorphKidsShow(live, want);
    AllShowTransitive(MorphKids(live, want), want, again);
    UnchangedStaysPut(MorphKids(live, want), again);
  }

  lemma {:induction false} AllShowTransitive(a: seq<Node>, b: seq<Node>, c: seq<Node>)
    requires AllShow(a, b) && AllShow(b, c)
    ensures AllShow(a, c)
    decreases c
  {
    forall i | 0 <= i < |c|
      ensures Shows(a[i], c[i])
    {
      if c[i].Element? && !IsFormControl(c[i].name) {
        AllShowTransitive(a[i].kids, b[i].kids, c[i].kids);
      }
    }
  }
}
