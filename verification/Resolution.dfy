// Expansion of a panel's metric names through the recording rules
// (`resolve` inside `panel_contracts`).

module Resolution {

  // Recording rule name -> metric names its expression selects.
  type Rules = map<string, seq<string>>

  datatype Outcome = Names(names: set<string>) | CycleAt(name: string)

  ghost function Unvisited(rules: Rules, visited: seq<string>): set<string> {
    rules.Keys - (set v | v in visited)
  }

  function Resolve(rules: Rules, name: string, visited: seq<string>): Outcome
    decreases |Unvisited(rules, visited)|, 0
  {
    if name in visited then CycleAt(name)
    else if name !in rules then Names({name})
    else
      Shrinks(rules, name, visited);
      ResolveAll(rules, rules[name], visited + [name])
  }

  // The union over `deps`, left to right; the first cycle met is raised.
  function ResolveAll(rules: Rules, deps: seq<string>, visited: seq<string>): Outcome
    decreases |Unvisited(rules, visited)|, |deps|
  {
    if deps == [] then Names({})
    else
      match Resolve(rules, deps[0], visited)
      case CycleAt(n) => CycleAt(n)
      case Names(first) =>
        match ResolveAll(rules, deps[1..], visited)
        case CycleAt(n) => CycleAt(n)
        case Names(rest) => Names(first + rest)
  }

  lemma Shrinks(rules: Rules, name: string, visited: seq<string>)
    requires name !in visited && name in rules
    ensures |Unvisited(rules, visited + [name])| < |Unvisited(rules, visited)|
  {
    SubsetSmaller(Unvisited(rules, visited + [name]), Unvisited(rules, visited), name);
  }

  lemma {:induction false} SubsetSmaller<T>(small: set<T>, large: set<T>, extra: T)
    requires small <= large && extra in large && extra !in small
    ensures |small| < |large|
  {
    if small == {} {
      assert |large| > 0;
    } else {
      var x :| x in small;
      SubsetSmaller(small - {x}, large - {x}, extra);
    }
  }

  // ---- the dependency graph

  ghost predicate Path(rules: Rules, p: seq<string>) {
    && p != []
    && forall i :: 0 <= i < |p| - 1 ==> p[i] in rules && p[i + 1] in rules[p[i]]
  }

  ghost predicate Repeats(p: seq<string>) {
    exists i, j :: 0 <= i < j < |p| && p[i] == p[j]
  }

  ghost predicate PathFrom(rules: Rules, p: seq<string>, x: string) {
    Path(rules, p) && p[0] == x
  }

  ghost predicate Reachable(rules: Rules, x: string, y: string) {
    exists p :: PathFrom(rules, p, x) && p[|p| - 1] == y
  }

  ghost predicate CycleReachable(rules: Rules, x: string) {
    exists p :: PathFrom(rules, p, x) && Repeats(p)
  }

  // ---- what `resolve` returns and when it raises

  lemma ResolveExact(rules: Rules, name: string)
    ensures Resolve(rules, name, []).CycleAt? <==> CycleReachable(rules, name)
    ensures Resolve(rules, name, []).Names? ==>
              forall y :: y in Resolve(rules, name, []).names <==>
                          y !in rules && Reachable(rules, name, y)
  {
    if Resolve(rules, name, []).CycleAt? {
      var p := CycleIsReal(rules, name, []);
      assert PathFrom(rules, p, name);
    } else {
      forall p | PathFrom(rules, p, name)
        ensures !Repeats(p)
        ensures p[|p| - 1] !in rules ==> p[|p| - 1] in Resolve(rules, name, []).names
      {
        PathsCovered(rules, name, [], p);
        assert [] + p == p;
      }
      forall y | y in Resolve(rules, name, []).names
        ensures y !in rules && Reachable(rules, name, y)
      {
        var p := NameIsReached(rules, name, [], y);
      }
    }
  }

  // The sources of a whole panel: its inputs resolved together.
  lemma {:induction false} PanelSourcesExact(rules: Rules, inputs: seq<string>)
    ensures ResolveAll(rules, inputs, []).CycleAt? <==> exists x :: x in inputs && CycleReachable(rules, x)
    ensures ResolveAll(rules, inputs, []).Names? ==>
              forall y :: y in ResolveAll(rules, inputs, []).names <==>
                          y !in rules && exists x :: x in inputs && Reachable(rules, x, y)
  {
    if inputs != [] {
      ResolveExact(rules, inputs[0]);
      PanelSourcesExact(rules, inputs[1..]);
      assert forall x :: x in inputs <==> x == inputs[0] || x in inputs[1..];
    }
  }

  // The path ends at a name it has met before.
  ghost predicate EndsOnCycle(p: seq<string>, name: string) {
    p != [] && p[|p| - 1] == name && name in p[..|p| - 1]
  }

  // A raised cycle is one: a path from the start comes back to the rule it is
  // raised at, which so depends on itself.
  lemma {:induction false} CycleIsReal(rules: Rules, name: string, visited: seq<string>) returns (p: seq<string>)
    requires Path(rules, visited + [name])
    requires Resolve(rules, name, visited).CycleAt?
    ensures Path(rules, p) && Repeats(p) && p[0] == (visited + [name])[0]
    ensures EndsOnCycle(p, Resolve(rules, name, visited).name)
    decreases |Unvisited(rules, visited)|, 0
  {
    if name in visited {
      p := visited + [name];
      var i :| 0 <= i < |visited| && visited[i] == name;
      assert p[i] == p[|visited|];
    } else {
      Shrinks(rules, name, visited);
      p := CycleInAll(rules, name, rules[name], visited + [name]);
    }
  }

  lemma {:induction false} CycleInAll(rules: Rules, name: string, deps: seq<string>, visited: seq<string>)
    returns (p: seq<string>)
    requires visited != [] && Path(rules, visited) && visited[|visited| - 1] == name && name in rules
    requires forall d :: d in deps ==> d in rules[name]
    requires ResolveAll(rules, deps, visited).CycleAt?
    ensures Path(rules, p) && Repeats(p) && p[0] == visited[0]
    ensures EndsOnCycle(p, ResolveAll(rules, deps, visited).name)
    decreases |Unvisited(rules, visited)|, |deps|
  {
    if Resolve(rules, deps[0], visited).CycleAt? {
      assert deps[0] in deps;
      p := CycleIsReal(rules, deps[0], visited);
    } else {
      p := CycleInAll(rules, name, deps[1..], visited);
    }
  }

  // A returned name ends a path from the start.
  lemma {:induction false} NameIsReached(rules: Rules, name: string, visited: seq<string>, y: string)
    returns (p: seq<string>)
    requires Resolve(rules, name, visited).Names? && y in Resolve(rules, name, visited).names
    ensures y !in rules && PathFrom(rules, p, name) && p[|p| - 1] == y
    decreases |Unvisited(rules, visited)|, 0
  {
    if name !in rules {
      p := [name];
    } else {
      Shrinks(rules, name, visited);
      var q := NameInAll(rules, rules[name], visited + [name], y);
      p := [name] + q;
    }
  }

  lemma {:induction false} NameInAll(rules: Rules, deps: seq<string>, visited: seq<string>, y: string)
    returns (p: seq<string>)
    requires ResolveAll(rules, deps, visited).Names? && y in ResolveAll(rules, deps, visited).names
    ensures y !in rules && Path(rules, p) && p[0] in deps && p[|p| - 1] == y
    decreases |Unvisited(rules, visited)|, |deps|
  {
    if y in Resolve(rules, deps[0], visited).names {
      p := NameIsReached(rules, deps[0], visited, y);
    } else {
      p := NameInAll(rules, deps[1..], visited, y);
    }
  }

  // When nothing is raised, no path meets itself or what was already visited,
  // and every path that ends in a plain metric has its end returned.
  lemma {:induction false} PathsCovered(rules: Rules, name: string, visited: seq<string>, q: seq<string>)
    requires PathFrom(rules, q, name)
    requires Resolve(rules, name, visited).Names?
    requires !Repeats(visited)
    ensures !Repeats(visited + q)
    ensures q[|q| - 1] !in rules ==> q[|q| - 1] in Resolve(rules, name, visited).names
    decreases q
  {
    if |q| == 1 {
      assert name !in visited;
    } else {
      AllResolve(rules, rules[name], visited + [name], q[1]);
      assert !Repeats(visited + [name]);
      assert Path(rules, q[1..]);
      PathsCovered(rules, q[1], visited + [name], q[1..]);
      assert visited + [name] + q[1..] == visited + q;
    }
  }

  lemma {:induction false} AllResolve(rules: Rules, deps: seq<string>, visited: seq<string>, d: string)
    requires d in deps && ResolveAll(rules, deps, visited).Names?
    ensures Resolve(rules, d, visited).Names?
    ensures Resolve(rules, d, visited).names <= ResolveAll(rules, deps, visited).names
    decreases deps
  {
    if d != deps[0] {
      AllResolve(rules, deps[1..], visited, d);
    }
  }
}
