// The change set of edgeos-sync: `diff`, and the delete/set script that
// `stage_script` builds, run against the device's configuration tree.

module StagedDiff {
  import opened Options

  // The tokens of one `set ...` line after the leading `set`.
  type Path = seq<string>

  ghost predicate Distinct(lines: seq<Path>) {
    forall l :: multiset(lines)[l] <= 1
  }

  function Elements(lines: seq<Path>): set<Path> {
    set l | l in lines
  }

  // No path of `t` runs through another one: `t` is the leaf set of a tree.
  ghost predicate PrefixFree(t: set<Path>) {
    forall p, q :: p in t && q in t && p <= q ==> p == q
  }

  // ---- diff

  function Keep(lines: seq<Path>, others: set<Path>): (kept: seq<Path>)
    ensures forall l :: l in kept <==> l in lines && l !in others
    ensures |kept| <= |lines|
  {
    if lines == [] then []
    else (if lines[0] in others then [] else [lines[0]]) + Keep(lines[1..], others)
  }

  function InsertDeepest(l: Path, sorted: seq<Path>): (r: seq<Path>)
    ensures forall x :: x in r <==> x == l || x in sorted
  {
    if sorted == [] || |l| >= |sorted[0]| then [l] + sorted
    else [sorted[0]] + InsertDeepest(l, sorted[1..])
  }

  // Stable sort on descending length.
  function DeepestFirst(lines: seq<Path>): (r: seq<Path>)
    ensures forall x :: x in r <==> x in lines
  {
    if lines == [] then [] else InsertDeepest(lines[0], DeepestFirst(lines[1..]))
  }

  // Deletes deepest first, then sets in the order of the repository's file.
  function Diff(live: seq<Path>, desired: seq<Path>): (seq<Path>, seq<Path>) {
    (DeepestFirst(Keep(live, Elements(desired))), Keep(desired, Elements(live)))
  }

  // ---- the configuration tree, as its set of leaf paths

  ghost predicate Found(t: set<Path>, p: Path) {
    exists q :: q in t && p <= q
  }

  // `delete p` takes the whole subtree at `p`.
  function DeletePath(t: set<Path>, p: Path): set<Path> {
    set q | q in t && !(p <= q)
  }

  // `set p` on an inner node changes nothing; otherwise `p` becomes a leaf and
  // the leaves it now runs through become inner nodes.
  function SetPath(t: set<Path>, p: Path): set<Path> {
    if exists q | q in t :: p <= q then t else (set q | q in t && !(q <= p)) + {p}
  }

  // The staged session under `set -e`: a delete without a target ends it.
  ghost function RunDeletes(t: set<Path>, deletes: seq<Path>): Option<set<Path>> {
    if deletes == [] then Some(t)
    else if !Found(t, deletes[0]) then None
    else RunDeletes(DeletePath(t, deletes[0]), deletes[1..])
  }

  function RunSets(t: set<Path>, sets: seq<Path>): set<Path>
    decreases sets
  {
    if sets == [] then t else RunSets(SetPath(t, sets[0]), sets[1..])
  }

  ghost function Stage(t: set<Path>, deletes: seq<Path>, sets: seq<Path>): Option<set<Path>> {
    match RunDeletes(t, deletes)
    case None => None
    case Some(t') => Some(RunSets(t', sets))
  }

  // ---- ordering of the deletes

  ghost predicate Descending(lines: seq<Path>) {
    lines == [] || ((forall l :: l in lines ==> |l| <= |lines[0]|) && Descending(lines[1..]))
  }

  lemma {:induction false} InsertDeepestSorted(l: Path, sorted: seq<Path>)
    requires Descending(sorted)
    ensures Descending(InsertDeepest(l, sorted))
  {
    var r := InsertDeepest(l, sorted);
    if sorted == [] || |l| >= |sorted[0]| {
      assert r[1..] == sorted;
    } else {
      InsertDeepestSorted(l, sorted[1..]);
      assert r[1..] == InsertDeepest(l, sorted[1..]);
    }
  }

  lemma {:induction false} InsertDeepestKeeps(l: Path, sorted: seq<Path>)
    ensures multiset(InsertDeepest(l, sorted)) == multiset{l} + multiset(sorted)
  {
    if sorted == [] || |l| >= |sorted[0]| {
    } else {
      InsertDeepestKeeps(l, sorted[1..]);
      assert sorted == [sorted[0]] + sorted[1..];
    }
  }

  // The deletes are a permutation of the lines to drop, deepest paths first.
  lemma {:induction false} DeepestFirstSorted(lines: seq<Path>)
    ensures Descending(DeepestFirst(lines))
    ensures multiset(DeepestFirst(lines)) == multiset(lines)
  {
    if lines != [] {
      DeepestFirstSorted(lines[1..]);
      InsertDeepestSorted(lines[0], DeepestFirst(lines[1..]));
      InsertDeepestKeeps(lines[0], DeepestFirst(lines[1..]));
      assert lines == [lines[0]] + lines[1..];
    }
  }

  lemma {:induction false} KeepDistinct(lines: seq<Path>, others: set<Path>)
    ensures forall l :: multiset(Keep(lines, others))[l] <= multiset(lines)[l]
  {
    if lines != [] {
      KeepDistinct(lines[1..], others);
      assert lines == [lines[0]] + lines[1..];
    }
  }

  // What the session is handed: distinct deletes, deepest first, exactly the live lines not wanted.
  lemma DeletesAre(live: seq<Path>, desired: seq<Path>)
    requires Distinct(live)
    ensures var deletes := Diff(live, desired).0;
            && Descending(deletes) && Distinct(deletes)
            && Elements(deletes) == Elements(live) - Elements(desired)
  {
    var kept := Keep(live, Elements(desired));
    DeepestFirstSorted(kept);
    KeepDistinct(live, Elements(desired));
    assert forall l :: l in DeepestFirst(kept) <==> l in kept;
  }

  // ---- running the deletes

  // The paths of `t` that are not at or below any of `deletes`.
  ghost function Outside(t: set<Path>, deletes: seq<Path>): set<Path> {
    set q | q in t && !AtOrBelow(q, deletes)
  }

  ghost predicate AtOrBelow(q: Path, deletes: seq<Path>) {
    exists p :: p in deletes && p <= q
  }

  // Executed deepest first, every delete still finds its target, whatever the
  // tree; what remains is everything not at or below a deleted path.
  lemma {:induction false} DeletesFindTargets(t: set<Path>, deletes: seq<Path>)
    requires Descending(deletes) && Distinct(deletes) && Elements(deletes) <= t
    ensures RunDeletes(t, deletes) == Some(Outside(t, deletes))
    decreases deletes
  {
    if deletes == [] {
      assert Outside(t, deletes) == t;
    } else {
      var p, rest := deletes[0], deletes[1..];
      assert p in t && p <= p;
      var t' := DeletePath(t, p);
      assert deletes == [p] + rest;
      assert multiset(deletes) == multiset{p} + multiset(rest);
      forall r | r in rest
        ensures r in t'
      {
        assert multiset(rest)[r] > 0;
        assert r in deletes;
        PrefixOfSameLength(p, r);
        assert multiset(deletes)[r] == multiset{p}[r] + multiset(rest)[r];
        assert r in Elements(deletes);
      }
      assert forall l :: multiset(rest)[l] <= multiset(deletes)[l];
      DeletesFindTargets(t', rest);
      forall q
        ensures AtOrBelow(q, deletes) <==> p <= q || AtOrBelow(q, rest)
      {
        assert forall r :: r in deletes <==> r == p || r in rest;
      }
      assert Outside(t', rest) == Outside(t, deletes);
    }
  }

  lemma PrefixOfSameLength(p: Path, r: Path)
    requires |r| <= |p|
    ensures p <= r ==> p == r
  {
    if p <= r {
      assert r[..|p|] == p;
    }
  }

  // On a leaf set the deletes remove exactly the unwanted lines.
  lemma DeletesLeaveWanted(live: seq<Path>, desired: seq<Path>)
    requires Distinct(live) && PrefixFree(Elements(live))
    ensures RunDeletes(Elements(live), Diff(live, desired).0) == Some(Elements(live) * Elements(desired))
  {
    var deletes := Diff(live, desired).0;
    DeletesAre(live, desired);
    DeletesFindTargets(Elements(live), deletes);
    assert forall p :: p in deletes <==> p in Elements(deletes);
    forall q | q in Elements(live)
      ensures AtOrBelow(q, deletes) <==> q !in Elements(desired)
    {
      assert q <= q;
    }
    assert Outside(Elements(live), deletes) == Elements(live) * Elements(desired);
  }

  // ---- running the sets

  lemma {:induction false} SetsAdd(t: set<Path>, sets: seq<Path>)
    requires PrefixFree(t + Elements(sets))
    ensures RunSets(t, sets) == t + Elements(sets)
    decreases sets
  {
    if sets != [] {
      var p, rest := sets[0], sets[1..];
      var all := t + Elements(sets);
      assert p in all;
      if exists q | q in t :: p <= q {
        var q :| q in t && p <= q;
        assert q in all && q == p;
        assert SetPath(t, p) == t + {p};
      } else {
        assert forall q :: q in t ==> q in all;
        assert SetPath(t, p) == t + {p};
      }
      assert t + {p} + Elements(rest) == all;
      SetsAdd(SetPath(t, p), rest);
    }
  }

  lemma {:induction false} SetsKeepPrefixFree(t: set<Path>, sets: seq<Path>)
    requires PrefixFree(t)
    ensures PrefixFree(RunSets(t, sets))
    decreases sets
  {
    if sets != [] {
      SetsKeepPrefixFree(SetPath(t, sets[0]), sets[1..]);
    }
  }

  // ---- the whole change set

  // The staged script always runs to its end, and turns the live tree into
  // exactly the desired lines iff the desired lines are themselves the leaves
  // of a tree.
  lemma StagedScriptIsExact(live: seq<Path>, desired: seq<Path>)
    requires Distinct(live) && PrefixFree(Elements(live))
    ensures var (deletes, sets) := Diff(live, desired);
            var result := Stage(Elements(live), deletes, sets);
            && result.Some?
            && (result == Some(Elements(desired)) <==> PrefixFree(Elements(desired)))
  {
    var (deletes, sets) := Diff(live, desired);
    DeletesLeaveWanted(live, desired);
    var wanted := Elements(live) * Elements(desired);
    assert wanted + Elements(sets) == Elements(desired);
    SetsKeepPrefixFree(wanted, sets);
    if PrefixFree(Elements(desired)) {
      SetsAdd(wanted, sets);
    }
  }

  // The closing check of `apply` (and "No changes") is equality of token sets.
  lemma NoDiffIffSame(live: seq<Path>, desired: seq<Path>)
    ensures Diff(live, desired) == ([], []) <==> Elements(live) == Elements(desired)
  {
    var (deletes, sets) := Diff(live, desired);
    var kept := Keep(live, Elements(desired));
    DeepestFirstSorted(kept);
    assert |multiset(deletes)| == |multiset(kept)|;
    assert kept == [] <==> deletes == [];
    assert kept != [] ==> kept[0] in kept;
    assert sets != [] ==> sets[0] in sets;
    assert kept == [] ==> forall l :: l in live ==> l in desired;
    assert sets == [] ==> forall l :: l in desired ==> l in live;
  }
}
