/** The loader: the import branch of `AST::_forwardNode` with `updatePriorities`. */
module ImportLoader {
  import opened Imports
  import opened ImportState
  import opened ImportTheorems

  class Loader {
    const graph: Graph
    const root: Path
    var asts: seq<Ast>
    var imports: seq<Import>
    // The order in which the entries were initialised.
    ghost var finish: seq<nat>
    ghost var clock: nat

    ghost function View(): State
      reads this
    {
      State(asts, imports, finish, clock)
    }

    constructor (graph: Graph, root: Path)
      requires Complete(graph) && root in graph
      ensures this.graph == graph && this.root == root
      ensures Loading(graph, root, View(), [0]) && asts[0].deps == []
    {
      this.graph := graph;
      this.root := root;
      asts := [Ast(root, 0, [])];
      imports := [];
      finish := [0];
      clock := 0;
      new;
      assert StackPaths(asts, [0]) == [root];
    }

    // `updatePriorities`.
    method UpdatePriorities(a: nat, p: nat)
      requires CanRaise(asts, imports, finish, a, p)
      modifies this`asts, this`imports
      ensures Raised(old(asts), old(imports), asts, imports, finish, a, p)
      decreases finish[a]
    {
      ghost var was, entries := asts, imports;
      VisitStarts(asts, imports, finish, a, p);
      asts := asts[a := asts[a].(priority := p)];
      var deps := asts[a].deps;
      var i := 0;
      while i < |deps|
        invariant 0 <= i <= |deps| && Visiting(was, entries, asts, imports, finish, a, p, i)
      {
        var d := deps[i];
        VisitDescends(was, entries, asts, imports, finish, a, p, i);
        if imports[d].priority < asts[a].priority + 1 {
          ghost var before, raised := asts, imports;
          imports := imports[d := imports[d].(priority := asts[a].priority + 1)];
          assert imports == raised[d := raised[d].(priority := p + 1)] && imports[d].priority == p + 1;
          UpdatePriorities(d + 1, imports[d].priority);
          VisitReturns(was, entries, before, raised, finish, a, p, i, asts, imports);
        }
        i := i + 1;
      }
      VisitEnds(was, entries, asts, imports, finish, a, p);
    }

    // `std::find_if` over the entries.
    method Find(path: Path) returns (k: nat)
      ensures k <= |imports| && (k < |imports| ==> imports[k].path == path)
      ensures forall i :: 0 <= i < k ==> imports[i].path != path
    {
      k := 0;
      while k < |imports| && imports[k].path != path
        invariant k <= |imports|
        invariant forall i :: 0 <= i < k ==> imports[i].path != path
      {
        k := k + 1;
      }
    }

    // Reading the module of AST `a`; false when it ends with E1032.
    method Gen(a: nat, ghost stack: seq<nat>) returns (ok: bool)
      requires Topped(graph, root, View(), stack, a) && asts[a].deps == []
      modifies this
      ensures ok ==> Reading(graph, root, old(View()), View(), stack, a, |graph[old(asts[a].path)]|)
      ensures !ok ==> Cyclic(graph, root)
      decreases |graph| - |imports|, 2
    {
      ghost var was := View();
      ReadingStarts(graph, root, was, stack, a);
      var paths := graph[asts[a].path];
      var i := 0;
      while i < |paths|
        invariant 0 <= i <= |paths| && Reading(graph, root, was, View(), stack, a, i)
      {
        ReadingBounds(graph, root, was, View(), stack, a, i);
        ok := Meet(a, paths[i], was, stack, i);
        if !ok { return; }
        var k := Find(paths[i]);
        ghost var s := View();
        ReadingCanRecord(graph, root, was, s, stack, a, i, k);
        Record(a, k, stack);
        ReadingGoesOn(graph, root, was, s, View(), stack, a, i);
        i := i + 1;
      }
      ok := true;
    }

    // The file of the next import: loaded now, earlier, or still being loaded.
    method Meet(a: nat, path: Path, ghost was: State, ghost stack: seq<nat>, ghost i: nat) returns (ok: bool)
      requires Topped(graph, root, was, stack, a) && Reading(graph, root, was, View(), stack, a, i)
      requires i < |graph[was.asts[a].path]| && path == graph[was.asts[a].path][i]
      modifies this
      ensures ok ==> Reading(graph, root, was, View(), stack, a, i) && HasEntry(imports, path)
      ensures !ok ==> Cyclic(graph, root)
      decreases |graph| - |imports|, 1
    {
      assert path in graph[was.asts[a].path];
      ghost var s := View();
      var k := Find(path);
      ok := true;
      if k == |imports| {
        assert CanLoad(graph, root, s, stack, a, path);
        ok := Load(a, path, stack);
        if ok { ReadingAfterLoad(graph, root, was, s, View(), stack, a, i); }
      } else if !imports[k].initialized {
        CycleFound(graph, root, s, stack, k);
        ok := false;
      } else {
        EntryIsOnly(graph, root, s, k);
      }
    }

    // A file met for the first time.
    method Load(a: nat, path: Path, ghost stack: seq<nat>) returns (ok: bool)
      requires CanLoad(graph, root, View(), stack, a, path)
      modifies this
      ensures ok ==> HasLoaded(graph, root, old(View()), View(), stack, path)
      ensures !ok ==> Cyclic(graph, root)
      decreases |graph| - |imports|, 0
    {
      ghost var s := View();
      LoadStarts(graph, root, s, stack, a, path);
      asts := asts + [Ast(path, 0, [])];
      imports := imports + [Import(path, 0, false)];
      finish := finish + [0];
      var importItemIdx := |imports| - 1;
      assert View() == Push(s, path);
      ok := Gen(importItemIdx + 1, stack + [importItemIdx + 1]);
      if ok {
        ghost var read := View();
        imports := imports[importItemIdx := imports[importItemIdx].(initialized := true)];
        finish := finish[importItemIdx + 1 := clock];
        clock := clock + 1;
        LoadEnds(graph, root, s, stack, a, path, read, View());
      }
    }

    // The dependency of `a` on entry `k`, and its priority.
    method Record(a: nat, k: nat, ghost stack: seq<nat>)
      requires CanRecord(graph, root, View(), stack, a, k)
      modifies this`asts, this`imports
      ensures HasRecorded(graph, root, old(View()), View(), stack, a)
    {
      ghost var s := View();
      asts := asts[a := asts[a].(deps := asts[a].deps + [k])];
      if imports[k].priority < asts[a].priority + 1 {
        RecordRaises(graph, root, s, stack, a, k);
        imports := imports[k := imports[k].(priority := asts[a].priority + 1)];
        assert asts == AddDep(s, a, k).asts && imports == RaisedEntries(s, a, k);
        UpdatePriorities(k + 1, imports[k].priority);
        RecordRaisedEnds(graph, root, s, View(), stack, a, k);
      } else {
        assert Recorded(s, a, k, View());
        RecordEnds(graph, root, s, View(), stack, a, k);
      }
    }
  }

  // Reading a root file: E1032 if and only if its imports have a cycle.
  method LoadRoot(graph: Graph, root: Path) returns (ok: bool, loader: Loader)
    requires Complete(graph) && root in graph
    ensures ok <==> !Cyclic(graph, root)
    ensures fresh(loader) && (ok ==> Loaded(graph, root, loader.View()))
  {
    loader := new Loader(graph, root);
    ok := loader.Gen(0, [0]);
    if ok { NoCycle(graph, root, loader.View()); }
  }
}
