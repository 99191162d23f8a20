/** What holds while modules are loaded, and what follows when loading ends. */
module ImportState {
  import opened Imports

  // `finish` is the order in which the entries were initialised.
  datatype State = State(asts: seq<Ast>, imports: seq<Import>, finish: seq<nat>, clock: nat)

  function StackPaths(asts: seq<Ast>, stack: seq<nat>): seq<Path>
    requires forall i :: 0 <= i < |stack| ==> stack[i] < |asts|
  {
    seq(|stack|, i requires 0 <= i < |stack| => asts[stack[i]].path)
  }

  predicate Filed(g: Graph, root: Path, s: State) {
    && |s.asts| == |s.imports| + 1
    && s.asts[0].path == root
    && (forall i :: 0 <= i < |s.imports| ==> s.imports[i].path == s.asts[i + 1].path)
    && (forall x :: 0 <= x < |s.asts| ==> s.asts[x].path in g)
    && (forall i, j :: 0 <= i < j < |s.imports| ==> s.imports[i].path != s.imports[j].path)
  }

  // The recorded dependencies of `x` are the first imports of its file.
  predicate DepsFit(g: Graph, s: State, x: nat)
    requires x < |s.asts| && s.asts[x].path in g
  {
    var deps, paths := s.asts[x].deps, g[s.asts[x].path];
    && |deps| <= |paths|
    && forall j :: 0 <= j < |deps| ==> deps[j] < |s.imports| && s.imports[deps[j]].path == paths[j]
  }

  predicate DepsFull(g: Graph, s: State, x: nat)
    requires x < |s.asts| && s.asts[x].path in g
  {
    DepsFit(g, s, x) && |s.asts[x].deps| == |g[s.asts[x].path]|
  }

  // Every recorded edge is respected, and no priority is higher than an edge
  // asks for.
  ghost predicate Ranked(s: State) {
    && (forall x :: 0 <= x < |s.asts| ==> Above(s.asts, x))
    && (forall x :: 0 <= x < |s.asts| ==> s.asts[x].priority == 0 || Lifted(s.asts, x))
  }

  // The modules being loaded: those not initialised, each importing the next.
  predicate Stacked(g: Graph, s: State, stack: seq<nat>) {
    && |stack| > 0 && stack[0] == 0
    && (forall i :: 0 <= i < |stack| ==> stack[i] < |s.asts|)
    && (forall x :: 0 <= x < |s.asts| ==> (x in stack <==> !Done(s.imports, x)))
    && Walk(g, StackPaths(s.asts, stack))
  }

  ghost predicate Loading(g: Graph, root: Path, s: State, stack: seq<nat>) {
    && Complete(g) && Filed(g, root, s) && Stacked(g, s, stack)
    && Sizes(s.asts, s.imports, s.finish) && Ordered(s.asts, s.imports, s.finish) && Synced(s.asts, s.imports)
    && (forall x :: 0 <= x < |s.asts| && Done(s.imports, x) ==> s.finish[x] < s.clock)
    && (forall x :: 0 <= x < |s.asts| ==> DepsFit(g, s, x))
    && (forall x :: 0 <= x < |s.asts| && Done(s.imports, x) ==> DepsFull(g, s, x))
    && (forall i :: 0 <= i < |s.imports| ==> Imported(g, root, s.imports[i].path))
    && Ranked(s)
  }

  // What loading `a` leaves alone.
  predicate Grown(s: State, s': State, a: nat)
    requires |s.asts| == |s.imports| + 1 && |s'.asts| == |s'.imports| + 1
  {
    && |s.asts| <= |s'.asts|
    && (forall x :: 0 <= x < |s.asts| ==> s'.asts[x].path == s.asts[x].path)
    && (forall x :: 0 <= x < |s.asts| && x != a ==> s'.asts[x].deps == s.asts[x].deps)
    && (forall i :: 0 <= i < |s.imports| ==>
          s'.imports[i].path == s.imports[i].path && s'.imports[i].initialized == s.imports[i].initialized)
  }

  lemma {:induction false} PathsFit(paths: seq<Path>, all: set<Path>)
    requires forall i, j :: 0 <= i < j < |paths| ==> paths[i] != paths[j]
    requires forall p :: p in paths ==> p in all
    ensures |paths| <= |all|
    decreases |paths|
  {
    if |paths| > 0 {
      var p, rest := paths[0], paths[1..];
      forall q | q in rest ensures q in all - {p} {
        var j :| 0 <= j < |rest| && rest[j] == q;
        assert paths[j + 1] == q;
        assert q in paths;
      }
      PathsFit(rest, all - {p});
    }
  }

  // There are no more entries than files.
  lemma EntriesFit(g: Graph, root: Path, s: State)
    requires Filed(g, root, s)
    ensures |s.imports| <= |g|
  {
    PathsFit(seq(|s.imports|, i requires 0 <= i < |s.imports| => s.imports[i].path), g.Keys);
  }

  // ----- The steps of loading -----

  function Push(s: State, q: Path): State {
    State(s.asts + [Ast(q, 0, [])], s.imports + [Import(q, 0, false)], s.finish + [0], s.clock)
  }

  // Appending an import to the walk along the stack.
  lemma StackWalk(g: Graph, s: State, stack: seq<nat>, q: Path)
    requires Complete(g) && Stacked(g, s, stack) && (forall x :: 0 <= x < |s.asts| ==> s.asts[x].path in g)
    requires q in g[s.asts[stack[|stack| - 1]].path]
    ensures Walk(g, StackPaths(s.asts, stack) + [q]) && q in g
  {
    var w := StackPaths(s.asts, stack);
    var v := w + [q];
    assert w[|w| - 1] == s.asts[stack[|stack| - 1]].path;
    assert q in g;
    forall i, j | 0 <= i && j == i + 1 < |v| ensures v[i] in g && v[j] in g[v[i]] {
      assert v[i] == w[i];
      if j < |w| { assert w[j] in g[w[i]]; }
    }
    forall i | 0 <= i < |v| ensures v[i] in g {
      if i < |w| { assert v[i] == w[i]; }
    }
    assert forall i :: 0 <= i < |v| ==> v[i] in g;
    assert forall i, j :: 0 <= i && j == i + 1 < |v| ==> v[j] in g[v[i]];
    assert Walk(g, v);
  }

  lemma PushLoads(g: Graph, root: Path, s: State, stack: seq<nat>, q: Path)
    requires Loading(g, root, s, stack)
    requires s.asts[stack[|stack| - 1]].path in g && q in g[s.asts[stack[|stack| - 1]].path]
    requires forall i :: 0 <= i < |s.imports| ==> s.imports[i].path != q
    ensures Loading(g, root, Push(s, q), stack + [|s.asts|])
  {
    var s' := Push(s, q);
    PushStacks(g, s, stack, q);
    assert ImportWalk(g, root, q, StackPaths(s.asts, stack) + [q]);
    PushRanks(s, q);
    PushFiles(g, root, s, q);
    PushFits(g, s, q);
    PushOrders(s, q);
    assert Synced(s'.asts, s'.imports);
    forall i | 0 <= i < |s'.imports| ensures Imported(g, root, s'.imports[i].path) {
      if i < |s.imports| { assert s'.imports[i] == s.imports[i]; }
    }
  }

  lemma PushFiles(g: Graph, root: Path, s: State, q: Path)
    requires Filed(g, root, s) && q in g && (forall i :: 0 <= i < |s.imports| ==> s.imports[i].path != q)
    ensures Filed(g, root, Push(s, q))
  {
    var s' := Push(s, q);
    forall i | 0 <= i < |s'.imports| ensures s'.imports[i].path == s'.asts[i + 1].path {
      if i < |s.imports| { assert s.imports[i].path == s.asts[i + 1].path; }
    }
  }

  lemma PushFits(g: Graph, s: State, q: Path)
    requires |s.asts| == |s.imports| + 1 == |s.finish| && q in g
    requires forall x :: 0 <= x < |s.asts| ==> s.asts[x].path in g && DepsFit(g, s, x)
    requires forall x :: 0 <= x < |s.asts| && Done(s.imports, x) ==> DepsFull(g, s, x) && s.finish[x] < s.clock
    ensures
      var s' := Push(s, q);
      && (forall x :: 0 <= x < |s'.asts| ==> s'.asts[x].path in g && DepsFit(g, s', x))
      && (forall x :: 0 <= x < |s'.asts| && Done(s'.imports, x) ==> DepsFull(g, s', x) && s'.finish[x] < s'.clock)
  {
    var s' := Push(s, q);
    forall x | 0 <= x < |s'.asts| ensures s'.asts[x].path in g && DepsFit(g, s', x) {
      if x < |s.asts| { assert DepsFit(g, s, x); }
    }
    forall x | 0 <= x < |s'.asts| && Done(s'.imports, x) ensures DepsFull(g, s', x) && s'.finish[x] < s'.clock {
      assert Done(s.imports, x);
      assert DepsFull(g, s, x);
    }
  }

  lemma PushOrders(s: State, q: Path)
    requires Sizes(s.asts, s.imports, s.finish) && Ordered(s.asts, s.imports, s.finish)
    ensures var s' := Push(s, q); Sizes(s'.asts, s'.imports, s'.finish) && Ordered(s'.asts, s'.imports, s'.finish)
  {
    var s' := Push(s, q);
    forall x, d | 0 <= x < |s'.asts| && d in s'.asts[x].deps
      ensures d < |s'.imports| && Done(s'.imports, d + 1) && (Done(s'.imports, x) ==> s'.finish[d + 1] < s'.finish[x])
    {
      assert d in s.asts[x].deps;
      assert Done(s.imports, d + 1);
    }
  }

  lemma PushRanks(s: State, q: Path)
    requires Ranked(s) && |s.asts| == |s.imports| + 1
    ensures Ranked(Push(s, q))
  {
    var s' := Push(s, q);
    forall x | 0 <= x < |s'.asts| ensures Above(s'.asts, x) && (s'.asts[x].priority == 0 || Lifted(s'.asts, x)) {
      if x < |s.asts| {
        assert Above(s.asts, x);
        if s.asts[x].priority != 0 {
          var z: nat :| Lifts(s.asts, z, x);
          assert Lifts(s'.asts, z, x);
        }
      }
    }
  }

  lemma PushStacks(g: Graph, s: State, stack: seq<nat>, q: Path)
    requires Complete(g) && Stacked(g, s, stack) && |s.asts| == |s.imports| + 1
    requires forall x :: 0 <= x < |s.asts| ==> s.asts[x].path in g
    requires q in g[s.asts[stack[|stack| - 1]].path]
    ensures Stacked(g, Push(s, q), stack + [|s.asts|])
    ensures Walk(g, StackPaths(s.asts, stack) + [q])
  {
    var s' := Push(s, q);
    StackWalk(g, s, stack, q);
    assert StackPaths(s'.asts, stack + [|s.asts|]) == StackPaths(s.asts, stack) + [q];
  }

  // The module on top of the stack has been read.
  lemma FinishLoads(g: Graph, root: Path, s: State, stack: seq<nat>, x: nat, s': State)
    requires |stack| > 0 && Loading(g, root, s, stack + [x]) && x !in stack
    requires 0 < x < |s.asts| == |s.finish| && s.asts[x].path in g && DepsFull(g, s, x)
    requires s'.asts == s.asts && s'.clock == s.clock + 1 && s'.finish == s.finish[x := s.clock]
    requires s'.imports == s.imports[x - 1 := s.imports[x - 1].(initialized := true)]
    ensures Loading(g, root, s', stack)
  {
    FinishUnstacks(g, s, stack, x, s');
    assert !Done(s.imports, x) by { assert x in stack + [x]; }
    FinishOrders(s, x, s');
    forall y | 0 <= y < |s'.asts| ensures DepsFit(g, s', y) && (Done(s'.imports, y) ==> DepsFull(g, s', y)) {
      assert DepsFit(g, s, y);
      if y != x && Done(s'.imports, y) { assert DepsFull(g, s, y); }
    }
  }

  lemma FinishOrders(s: State, x: nat, s': State)
    requires Sizes(s.asts, s.imports, s.finish) && Ordered(s.asts, s.imports, s.finish)
    requires 0 < x < |s.asts| && !Done(s.imports, x)
    requires forall y :: 0 <= y < |s.asts| && Done(s.imports, y) ==> s.finish[y] < s.clock
    requires s'.asts == s.asts && s'.finish == s.finish[x := s.clock]
    requires s'.imports == s.imports[x - 1 := s.imports[x - 1].(initialized := true)]
    ensures Sizes(s'.asts, s'.imports, s'.finish) && Ordered(s'.asts, s'.imports, s'.finish)
  {
    forall y, d | 0 <= y < |s'.asts| && d in s'.asts[y].deps
      ensures Done(s'.imports, d + 1) && (Done(s'.imports, y) ==> s'.finish[d + 1] < s'.finish[y])
    {
      assert Done(s.imports, d + 1);
    }
  }

  lemma FinishUnstacks(g: Graph, s: State, stack: seq<nat>, x: nat, s': State)
    requires |stack| > 0 && Stacked(g, s, stack + [x]) && x !in stack && 0 < x < |s.asts| == |s.imports| + 1
    requires s'.asts == s.asts && s'.imports == s.imports[x - 1 := s.imports[x - 1].(initialized := true)]
    ensures Stacked(g, s', stack)
  {
    var w := StackPaths(s.asts, stack + [x]);
    forall i | 0 <= i < |stack| ensures stack[i] < |s.asts| && (stack + [x])[i] == stack[i] {
      assert (stack + [x])[i] < |s.asts|;
    }
    var v := StackPaths(s'.asts, stack);
    assert forall i :: 0 <= i < |v| ==> v[i] == w[i];
    assert Walk(g, v);
    forall y | 0 <= y < |s.asts| ensures y in stack <==> !Done(s'.imports, y) {
      assert y in stack + [x] <==> !Done(s.imports, y);
    }
  }

  // The import of a module that is still being loaded closes a cycle.
  lemma CycleFound(g: Graph, root: Path, s: State, stack: seq<nat>, k: nat)
    requires Loading(g, root, s, stack) && k < |s.imports| && !s.imports[k].initialized
    requires s.asts[stack[|stack| - 1]].path in g && s.imports[k].path in g[s.asts[stack[|stack| - 1]].path]
    ensures Cyclic(g, root)
  {
    var q := s.imports[k].path;
    StackWalk(g, s, stack, q);
    var w := StackPaths(s.asts, stack) + [q];
    assert k + 1 in stack;
    var i :| 0 <= i < |stack| && stack[i] == k + 1;
    assert w[i] == w[|w| - 1];
    assert CyclicWalk(g, root, w);
  }

  function AddDep(s: State, a: nat, k: nat): State
    requires a < |s.asts|
  {
    s.(asts := s.asts[a := s.asts[a].(deps := s.asts[a].deps + [k])])
  }

  // The entries when entry `k` is too low for `a`, which depends on it.
  function RaisedEntries(s: State, a: nat, k: nat): seq<Import>
    requires a < |s.asts| && k < |s.imports|
  {
    s.imports[k := s.imports[k].(priority := s.asts[a].priority + 1)]
  }

  // Then it can be raised.
  lemma EdgeCanRaise(s: State, a: nat, k: nat)
    requires Sizes(s.asts, s.imports, s.finish) && Ordered(s.asts, s.imports, s.finish) && Synced(s.asts, s.imports)
    requires forall x :: 0 <= x < |s.asts| ==> Above(s.asts, x)
    requires a < |s.asts| && !Done(s.imports, a) && k < |s.imports| && s.imports[k].initialized
    requires s.imports[k].priority < s.asts[a].priority + 1
    ensures CanRaise(AddDep(s, a, k).asts, RaisedEntries(s, a, k), s.finish, k + 1, s.asts[a].priority + 1)
  {
    var asts, imports := AddDep(s, a, k).asts, RaisedEntries(s, a, k);
    forall x | x in Below(asts, imports, s.finish, k + 1) ensures Above(asts, x) {
      assert Done(s.imports, x) && x != a;
      assert Above(s.asts, x);
    }
    EdgeOrders(s, a, k);
    ShapeStays(asts, asts, s.imports, imports, s.finish);
  }

  lemma EdgeOrders(s: State, a: nat, k: nat)
    requires Sizes(s.asts, s.imports, s.finish) && Ordered(s.asts, s.imports, s.finish)
    requires a < |s.asts| && !Done(s.imports, a) && k < |s.imports| && s.imports[k].initialized
    ensures Sizes(AddDep(s, a, k).asts, s.imports, s.finish) && Ordered(AddDep(s, a, k).asts, s.imports, s.finish)
  {
    var asts := AddDep(s, a, k).asts;
    forall x, d | 0 <= x < |asts| && d in asts[x].deps
      ensures d < |s.imports| && Done(s.imports, d + 1) && (Done(s.imports, x) ==> s.finish[d + 1] < s.finish[x])
    {
      if x != a || d != k {
        assert d in s.asts[x].deps;
        assert Done(s.imports, d + 1);
      }
    }
  }

  // Recording a dependency and raising it if need be.
  predicate Recorded(s: State, a: nat, k: nat, s': State)
    requires a < |s.asts| && k < |s.imports|
  {
    && s'.finish == s.finish && s'.clock == s.clock
    && s.imports[k].priority >= s.asts[a].priority + 1 && s' == AddDep(s, a, k)
  }

  ghost predicate RecordedRaised(s: State, a: nat, k: nat, s': State)
    requires a < |s.asts| && k < |s.imports|
  {
    var p := s.asts[a].priority + 1;
    && s'.finish == s.finish && s'.clock == s.clock
    && CanRaise(AddDep(s, a, k).asts, RaisedEntries(s, a, k), s.finish, k + 1, p)
    && Raised(AddDep(s, a, k).asts, RaisedEntries(s, a, k), s'.asts, s'.imports, s.finish, k + 1, p)
  }

  lemma EdgeLoads(g: Graph, root: Path, s: State, stack: seq<nat>, k: nat, s': State)
    requires Loading(g, root, s, stack) && k < |s.imports| && s.imports[k].initialized
    requires
      var a := stack[|stack| - 1];
      var n := |s.asts[a].deps|;
      && s.asts[a].path in g && n < |g[s.asts[a].path]| && s.imports[k].path == g[s.asts[a].path][n]
      && (Recorded(s, a, k, s') || RecordedRaised(s, a, k, s'))
    ensures Loading(g, root, s', stack)
  {
    var a := stack[|stack| - 1];
    var s1 := AddDep(s, a, k);
    assert a in stack && !Done(s.imports, a);
    EdgeRanks(s, a, k, s');
    EdgeOrders(s, a, k);
    ShapeStays(s1.asts, s'.asts, s.imports, s'.imports, s.finish);
    EdgeFits(g, root, s, a, k, s');
    AddDepStacks(g, s, stack, a, k);
    EdgeStacks(g, s1, stack, s');
    EdgeFinished(s, s');
    forall i | 0 <= i < |s'.imports| ensures Imported(g, root, s'.imports[i].path) {
      assert s'.imports[i].path == s.imports[i].path;
    }
  }

  lemma EdgeFinished(s: State, s': State)
    requires |s.asts| == |s.imports| + 1 == |s.finish| && |s'.asts| == |s.asts| && SameEntries(s.imports, s'.imports)
    requires s'.finish == s.finish && s'.clock == s.clock
    requires forall x :: 0 <= x < |s.asts| && Done(s.imports, x) ==> s.finish[x] < s.clock
    ensures forall x :: 0 <= x < |s'.asts| && Done(s'.imports, x) ==> s'.finish[x] < s'.clock
  {
    forall x | 0 <= x < |s'.asts| && Done(s'.imports, x) ensures s'.finish[x] < s'.clock {
      assert Done(s.imports, x);
    }
  }

  // The stack stands as long as files and entries stay the same.
  lemma EdgeStacks(g: Graph, s: State, stack: seq<nat>, s': State)
    requires Stacked(g, s, stack) && Unchanged(s.asts, s'.asts, s.imports, s'.imports)
    ensures Stacked(g, s', stack)
  {
    assert StackPaths(s'.asts, stack) == StackPaths(s.asts, stack);
    forall x | 0 <= x < |s'.asts| ensures x in stack <==> !Done(s'.imports, x) {
      assert Done(s'.imports, x) == Done(s.imports, x);
    }
  }

  lemma AddDepStacks(g: Graph, s: State, stack: seq<nat>, a: nat, k: nat)
    requires Stacked(g, s, stack) && a < |s.asts|
    ensures Stacked(g, AddDep(s, a, k), stack)
  {
    assert StackPaths(AddDep(s, a, k).asts, stack) == StackPaths(s.asts, stack);
  }

  lemma EdgeFits(g: Graph, root: Path, s: State, a: nat, k: nat, s': State)
    requires Filed(g, root, s) && a < |s.asts| && k < |s.imports| && !Done(s.imports, a)
    requires Unchanged(AddDep(s, a, k).asts, s'.asts, s.imports, s'.imports)
    requires
      var n := |s.asts[a].deps|;
      n < |g[s.asts[a].path]| && s.imports[k].path == g[s.asts[a].path][n]
    requires forall x :: 0 <= x < |s.asts| ==> DepsFit(g, s, x)
    requires forall x :: 0 <= x < |s.asts| && Done(s.imports, x) ==> DepsFull(g, s, x)
    ensures Filed(g, root, s')
    ensures forall x :: 0 <= x < |s'.asts| ==> DepsFit(g, s', x)
    ensures forall x :: 0 <= x < |s'.asts| && Done(s'.imports, x) ==> DepsFull(g, s', x)
  {
    forall x | 0 <= x < |s'.asts| ensures DepsFit(g, s', x) && (Done(s'.imports, x) ==> DepsFull(g, s', x)) {
      assert DepsFit(g, s, x);
      if Done(s'.imports, x) { assert Done(s.imports, x) && DepsFull(g, s, x); }
    }
  }

  lemma EdgeLifts(s: State, a: nat, k: nat)
    requires Ranked(s) && a < |s.asts|
    ensures forall x :: 0 <= x < |s.asts| ==> s.asts[x].priority == 0 || Lifted(AddDep(s, a, k).asts, x)
  {
    forall x | 0 <= x < |s.asts| && s.asts[x].priority != 0 ensures Lifted(AddDep(s, a, k).asts, x) {
      var z: nat :| Lifts(s.asts, z, x);
      assert Lifts(AddDep(s, a, k).asts, z, x);
    }
  }

  lemma EdgeRanks(s: State, a: nat, k: nat, s': State)
    requires Ranked(s) && a < |s.asts| == |s.imports| + 1 && k < |s.imports| && !Done(s.imports, a)
    requires s.imports[k].initialized && Synced(s.asts, s.imports)
    requires Recorded(s, a, k, s') || RecordedRaised(s, a, k, s')
    ensures Ranked(s') && Unchanged(AddDep(s, a, k).asts, s'.asts, s.imports, s'.imports) && Synced(s'.asts, s'.imports)
  {
    EdgeLifts(s, a, k);
    if Recorded(s, a, k, s') {
      EdgeRecorded(s, a, k);
    } else {
      EdgeKeepsTop(s, a, k, s');
      EdgeRaises(AddDep(s, a, k).asts, s'.asts, s.asts, a, k);
    }
  }

  lemma EdgeRecorded(s: State, a: nat, k: nat)
    requires |s.asts| == |s.imports| + 1 && a < |s.asts| && k < |s.imports| && Synced(s.asts, s.imports)
    requires s.imports[k].priority >= s.asts[a].priority + 1
    requires forall x :: 0 <= x < |s.asts| ==> Above(s.asts, x)
    ensures forall x :: 0 <= x < |s.asts| ==> Above(AddDep(s, a, k).asts, x)
    ensures Unchanged(AddDep(s, a, k).asts, AddDep(s, a, k).asts, s.imports, s.imports)
    ensures Synced(AddDep(s, a, k).asts, s.imports)
  {
    forall x | 0 <= x < |s.asts| ensures Above(AddDep(s, a, k).asts, x) { assert Above(s.asts, x); }
  }

  lemma EdgeKeepsTop(s: State, a: nat, k: nat, s': State)
    requires a < |s.asts| == |s.imports| + 1 && k < |s.imports| && !Done(s.imports, a) && s.imports[k].initialized
    requires RecordedRaised(s, a, k, s')
    ensures Unchanged(AddDep(s, a, k).asts, s'.asts, s.imports, s'.imports) && Synced(s'.asts, s'.imports)
    ensures RaisedFrom(AddDep(s, a, k).asts, s'.asts, k + 1, s.asts[a].priority + 1)
    ensures s'.asts[a].priority == s.asts[a].priority
  {
    assert a !in {k + 1} + Below(AddDep(s, a, k).asts, RaisedEntries(s, a, k), s.finish, k + 1);
  }

  lemma EdgeRaises(asts: seq<Ast>, asts': seq<Ast>, was: seq<Ast>, a: nat, k: nat)
    requires a < |was| && k + 1 < |was| && asts == was[a := was[a].(deps := was[a].deps + [k])]
    requires forall x :: 0 <= x < |was| ==> Above(was, x)
    requires forall x :: 0 <= x < |was| ==> was[x].priority == 0 || Lifted(asts, x)
    requires SameFiles(asts, asts') && RaisedFrom(asts, asts', k + 1, was[a].priority + 1)
    requires asts'[a].priority == asts[a].priority
    ensures forall x :: 0 <= x < |was| ==> Above(asts', x)
    ensures forall x :: 0 <= x < |was| ==> asts'[x].priority == 0 || Lifted(asts', x)
  {
    assert Lifts(asts', a, k + 1);
    forall x | 0 <= x < |was| ensures Above(asts', x) { EdgeKeepsAbove(asts, asts', was, a, k, x); }
    forall x | 0 <= x < |was| && asts'[x].priority != 0 ensures Lifted(asts', x) {
      if asts'[x].priority == asts[x].priority { LiftedStays(asts, asts', x); }
    }
  }

  lemma EdgeKeepsAbove(asts: seq<Ast>, asts': seq<Ast>, was: seq<Ast>, a: nat, k: nat, x: nat)
    requires a < |was| && k + 1 < |was| && asts == was[a := was[a].(deps := was[a].deps + [k])]
    requires x < |was| && Above(was, x)
    requires SameFiles(asts, asts') && OnlyRaised(asts, asts') && asts'[k + 1].priority == was[a].priority + 1
    requires asts'[a].priority == asts[a].priority
    requires asts'[x].priority != asts[x].priority ==> Above(asts', x)
    ensures Above(asts', x)
  {
  }

  // ----- What each method of the loader needs and achieves -----

  ghost predicate Topped(g: Graph, root: Path, s: State, stack: seq<nat>, a: nat) {
    Loading(g, root, s, stack) && stack[|stack| - 1] == a && a < |s.asts| && s.asts[a].path in g
  }

  // The next import of `a` is entry `k`.
  ghost predicate CanRecord(g: Graph, root: Path, s: State, stack: seq<nat>, a: nat, k: nat) {
    && Topped(g, root, s, stack, a) && k < |s.imports| && s.imports[k].initialized
    && |s.asts[a].deps| < |g[s.asts[a].path]| && s.imports[k].path == g[s.asts[a].path][|s.asts[a].deps|]
  }

  ghost predicate HasRecorded(g: Graph, root: Path, s: State, s': State, stack: seq<nat>, a: nat)
    requires Topped(g, root, s, stack, a)
  {
    Topped(g, root, s', stack, a) && Grown(s, s', a) && |s'.asts[a].deps| == |s.asts[a].deps| + 1
  }

  ghost predicate CanLoad(g: Graph, root: Path, s: State, stack: seq<nat>, a: nat, q: Path) {
    && Topped(g, root, s, stack, a) && q in g[s.asts[a].path]
    && forall i :: 0 <= i < |s.imports| ==> s.imports[i].path != q
  }

  ghost predicate HasLoaded(g: Graph, root: Path, s: State, s': State, stack: seq<nat>, q: Path)
    requires exists a :: CanLoad(g, root, s, stack, a, q)
  {
    && Loading(g, root, s', stack) && Grown(s, s', |s.asts|) && |s.imports| < |s'.imports|
    && s'.imports[|s.imports|].path == q && s'.imports[|s.imports|].initialized
  }

  // While the imports of `a` are read, `i` of them so far.
  ghost predicate Reading(g: Graph, root: Path, was: State, s: State, stack: seq<nat>, a: nat, i: nat)
    requires Topped(g, root, was, stack, a)
  {
    && Topped(g, root, s, stack, a) && Grown(was, s, a)
    && |s.asts[a].deps| == i <= |g[s.asts[a].path]| && s.asts[a].path == was.asts[a].path
  }

  lemma RecordRaises(g: Graph, root: Path, s: State, stack: seq<nat>, a: nat, k: nat)
    requires CanRecord(g, root, s, stack, a, k) && s.imports[k].priority < s.asts[a].priority + 1
    ensures CanRaise(AddDep(s, a, k).asts, RaisedEntries(s, a, k), s.finish, k + 1, s.asts[a].priority + 1)
  {
    assert a in stack && !Done(s.imports, a);
    EdgeCanRaise(s, a, k);
  }

  lemma RecordRaisedEnds(g: Graph, root: Path, s: State, s': State, stack: seq<nat>, a: nat, k: nat)
    requires CanRecord(g, root, s, stack, a, k)
    requires
      var p := s.asts[a].priority + 1;
      && CanRaise(AddDep(s, a, k).asts, RaisedEntries(s, a, k), s.finish, k + 1, p)
      && Raised(AddDep(s, a, k).asts, RaisedEntries(s, a, k), s'.asts, s'.imports, s.finish, k + 1, p)
    requires s'.finish == s.finish && s'.clock == s.clock
    ensures HasRecorded(g, root, s, s', stack, a)
  {
    assert RecordedRaised(s, a, k, s');
    RecordEnds(g, root, s, s', stack, a, k);
  }

  lemma RecordEnds(g: Graph, root: Path, s: State, s': State, stack: seq<nat>, a: nat, k: nat)
    requires CanRecord(g, root, s, stack, a, k) && (Recorded(s, a, k, s') || RecordedRaised(s, a, k, s'))
    ensures HasRecorded(g, root, s, s', stack, a)
  {
    EdgeLoads(g, root, s, stack, k, s');
    EdgeGrows(s, a, k, s');
  }

  lemma EdgeGrows(s: State, a: nat, k: nat, s': State)
    requires a < |s.asts| == |s.imports| + 1 && k < |s.imports|
    requires Recorded(s, a, k, s') || RecordedRaised(s, a, k, s')
    ensures |s'.asts| == |s'.imports| + 1 == |s.asts|
    ensures Grown(s, s', a) && s'.asts[a].path == s.asts[a].path && |s'.asts[a].deps| == |s.asts[a].deps| + 1
  {
    assert Unchanged(AddDep(s, a, k).asts, s'.asts, s.imports, s'.imports);
  }

  lemma GrownAgain(s: State, s1: State, s2: State, a: nat)
    requires |s.asts| == |s.imports| + 1 && |s1.asts| == |s1.imports| + 1 && |s2.asts| == |s2.imports| + 1
    requires Grown(s, s1, a) && (Grown(s1, s2, a) || Grown(s1, s2, |s1.asts|))
    ensures Grown(s, s2, a)
  {
  }

  lemma ReadingAfterLoad(g: Graph, root: Path, was: State, s: State, s': State, stack: seq<nat>, a: nat, i: nat)
    requires Topped(g, root, was, stack, a) && Reading(g, root, was, s, stack, a, i) && i < |g[was.asts[a].path]|
    requires CanLoad(g, root, s, stack, a, g[was.asts[a].path][i])
    requires HasLoaded(g, root, s, s', stack, g[was.asts[a].path][i])
    ensures Reading(g, root, was, s', stack, a, i)
    ensures HasEntry(s'.imports, g[was.asts[a].path][i])
  {
    GrownAgain(was, s, s', a);
    assert s'.asts[a].deps == s.asts[a].deps;
    EntryIsOnly(g, root, s', |s.imports|);
  }

  // The entry of a path, and that it has been initialised.
  predicate HasEntry(imports: seq<Import>, q: Path) {
    && (exists i :: 0 <= i < |imports| && imports[i].path == q)
    && (forall i :: 0 <= i < |imports| && imports[i].path == q ==> imports[i].initialized)
  }

  lemma EntryIsOnly(g: Graph, root: Path, s: State, k: nat)
    requires Filed(g, root, s) && k < |s.imports| && s.imports[k].initialized
    ensures HasEntry(s.imports, s.imports[k].path)
  {
    forall i | 0 <= i < |s.imports| && s.imports[i].path == s.imports[k].path ensures s.imports[i].initialized {
      assert i == k;
    }
  }

  lemma ReadingCanRecord(g: Graph, root: Path, was: State, s: State, stack: seq<nat>, a: nat, i: nat, k: nat)
    requires Topped(g, root, was, stack, a) && Reading(g, root, was, s, stack, a, i) && i < |g[was.asts[a].path]|
    requires k < |s.imports| && s.imports[k].initialized && s.imports[k].path == g[was.asts[a].path][i]
    ensures CanRecord(g, root, s, stack, a, k)
  {
  }

  lemma ReadingGoesOn(g: Graph, root: Path, was: State, s: State, s': State, stack: seq<nat>, a: nat, i: nat)
    requires Topped(g, root, was, stack, a) && Reading(g, root, was, s, stack, a, i) && i < |g[was.asts[a].path]|
    requires HasRecorded(g, root, s, s', stack, a)
    ensures Reading(g, root, was, s', stack, a, i + 1)
  {
    GrownAgain(was, s, s', a);
    assert s'.asts[a].path == s.asts[a].path;
  }

  // Entries only appear.
  lemma ReadingBounds(g: Graph, root: Path, was: State, s: State, stack: seq<nat>, a: nat, i: nat)
    requires Topped(g, root, was, stack, a) && Reading(g, root, was, s, stack, a, i)
    ensures |was.imports| <= |s.imports| <= |g|
  {
    EntriesFit(g, root, s);
  }

  lemma ReadingStarts(g: Graph, root: Path, s: State, stack: seq<nat>, a: nat)
    requires Topped(g, root, s, stack, a) && s.asts[a].deps == []
    ensures Reading(g, root, s, s, stack, a, 0)
  {
  }

  // A new entry on top of the stack, and the stack without it.
  lemma LoadStarts(g: Graph, root: Path, s: State, stack: seq<nat>, a: nat, q: Path)
    requires CanLoad(g, root, s, stack, a, q)
    ensures Topped(g, root, Push(s, q), stack + [|s.asts|], |s.asts|) && Push(s, q).asts[|s.asts|].deps == []
    ensures |s.imports| < |g|
  {
    PushLoads(g, root, s, stack, q);
    EntriesFit(g, root, Push(s, q));
  }

  lemma LoadEnds(g: Graph, root: Path, s: State, stack: seq<nat>, a: nat, q: Path, s1: State, s': State)
    requires CanLoad(g, root, s, stack, a, q)
    requires Topped(g, root, Push(s, q), stack + [|s.asts|], |s.asts|)
    requires Reading(g, root, Push(s, q), s1, stack + [|s.asts|], |s.asts|, |g[q]|)
    requires s'.asts == s1.asts && s'.clock == s1.clock + 1
    requires |s1.finish| > |s.asts| && s'.finish == s1.finish[|s.asts| := s1.clock]
    requires
      |s1.imports| > |s.imports| &&
      s'.imports == s1.imports[|s.imports| := s1.imports[|s.imports|].(initialized := true)]
    ensures HasLoaded(g, root, s, s', stack, q)
  {
    var x := |s.asts|;
    assert x !in stack;
    FinishLoads(g, root, s1, stack, x, s');
    LoadGrows(s, q, s1, s');
  }

  lemma LoadGrows(s: State, q: Path, s1: State, s': State)
    requires |s.asts| == |s.imports| + 1 && |s1.asts| == |s1.imports| + 1 && |s'.asts| == |s'.imports| + 1
    requires Grown(Push(s, q), s1, |s.asts|) && s'.asts == s1.asts && |s1.imports| > |s.imports|
    requires s'.imports == s1.imports[|s.imports| := s1.imports[|s.imports|].(initialized := true)]
    ensures Grown(s, s', |s.asts|) && s'.imports[|s.imports|].path == q
  {
    forall i | 0 <= i < |s.imports|
      ensures s'.imports[i].path == s.imports[i].path && s'.imports[i].initialized == s.imports[i].initialized
    {
      assert Push(s, q).imports[i] == s.imports[i];
    }
    forall x | 0 <= x < |s.asts| ensures s'.asts[x].path == s.asts[x].path && s'.asts[x].deps == s.asts[x].deps {
      assert Push(s, q).asts[x] == s.asts[x];
    }
    assert Push(s, q).imports[|s.imports|].path == q;
  }
}
