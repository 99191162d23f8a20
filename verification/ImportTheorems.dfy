/** What a finished load guarantees about the files, the cycles and the
    priorities. */
module ImportTheorems {
  import opened Imports
  import opened ImportState

  // The root and everything it imports have been read.
  ghost predicate Loaded(g: Graph, root: Path, s: State) {
    Loading(g, root, s, [0]) && DepsFull(g, s, 0)
  }

  // Each import declaration of a module has become a dependency.
  lemma ImportIsDep(g: Graph, root: Path, s: State, x: nat, q: Path) returns (d: nat)
    requires Loaded(g, root, s) && x < |s.asts| && q in g[s.asts[x].path]
    ensures d in s.asts[x].deps && d < |s.imports| && s.imports[d].path == q
  {
    assert x == 0 || Done(s.imports, x) by { assert x in [0] <==> !Done(s.imports, x); }
    assert DepsFull(g, s, x);
    var paths := g[s.asts[x].path];
    var j :| 0 <= j < |paths| && paths[j] == q;
    d := s.asts[x].deps[j];
  }

  // Every walk along imports stays among the loaded modules, and each step
  // raises the priority.
  lemma {:induction false} WalkIsLoaded(g: Graph, root: Path, s: State, w: seq<Path>, k: nat) returns (x: nat)
    requires Loaded(g, root, s) && Walk(g, w) && w[0] == root && k < |w|
    ensures x < |s.asts| && s.asts[x].path == w[k] && s.asts[x].priority >= k && (if k == 0 then x == 0 else x > 0)
    decreases k
  {
    if k == 0 {
      x := 0;
    } else {
      var y := WalkIsLoaded(g, root, s, w, k - 1);
      var d := ImportIsDep(g, root, s, y, w[k]);
      assert Above(s.asts, y);
      x := d + 1;
    }
  }

  lemma OneEntryPerPath(g: Graph, root: Path, s: State, x: nat, y: nat)
    requires Filed(g, root, s) && 0 < x < |s.asts| && 0 < y < |s.asts| && s.asts[x].path == s.asts[y].path
    ensures x == y
  {
    assert s.imports[x - 1].path == s.imports[y - 1].path;
  }

  // Along a walk modules were finished later and later towards its start.
  lemma {:induction false} WalkFinishes(g: Graph, root: Path, s: State, w: seq<Path>, j: nat, k: nat, x: nat, y: nat)
    requires Loaded(g, root, s) && Walk(g, w) && j < k < |w|
    requires 0 < x < |s.asts| && 0 < y < |s.asts| && s.asts[x].path == w[j] && s.asts[y].path == w[k]
    ensures s.finish[y] < s.finish[x]
    decreases k - j
  {
    var d := ImportIsDep(g, root, s, x, w[j + 1]);
    assert Done(s.imports, x) by { assert x in [0] <==> !Done(s.imports, x); }
    assert s.finish[d + 1] < s.finish[x];
    if k == j + 1 {
      OneEntryPerPath(g, root, s, d + 1, y);
    } else {
      WalkFinishes(g, root, s, w, j + 1, k, d + 1, y);
    }
  }

  // A load that ends without E1032 has met no cycle: there is none to meet.
  lemma NoCycle(g: Graph, root: Path, s: State)
    requires Loaded(g, root, s)
    ensures !Cyclic(g, root)
  {
    if Cyclic(g, root) {
      var w :| CyclicWalk(g, root, w);
      var n := |w| - 1;
      var i :| 0 <= i < n && w[i] == w[n];
      var y := WalkIsLoaded(g, root, s, w, n);
      if i > 0 {
        var x := WalkIsLoaded(g, root, s, w, i);
        WalkFinishes(g, root, s, w, i, n, x, y);
        OneEntryPerPath(g, root, s, x, y);
      } else {
        // The cycle goes through the root, loaded once more as an import.
        var d := ImportIsDep(g, root, s, y, w[1]);
        assert s.finish[d + 1] < s.finish[y] by { assert y in [0] <==> !Done(s.imports, y); }
        if n > 1 { WalkFinishes(g, root, s, w, 1, n, d + 1, y); }
      }
    }
  }

  // The entries are exactly the files imported from the root, one each.
  lemma EachFileOnce(g: Graph, root: Path, s: State, p: Path)
    requires Loaded(g, root, s)
    ensures Imported(g, root, p) <==> exists i :: 0 <= i < |s.imports| && s.imports[i].path == p
    ensures forall i, j :: 0 <= i < j < |s.imports| ==> s.imports[i].path != s.imports[j].path
  {
    if Imported(g, root, p) {
      var w :| ImportWalk(g, root, p, w);
      var x := WalkIsLoaded(g, root, s, w, |w| - 1);
      assert s.imports[x - 1].path == p;
    }
  }

  // From a module back to the root, through importers that asked for its
  // priority.
  lemma {:induction false} WalkOfPriority(g: Graph, root: Path, s: State, x: nat) returns (w: seq<Path>)
    requires Loaded(g, root, s) && x < |s.asts|
    ensures Walk(g, w) && w[0] == root && w[|w| - 1] == s.asts[x].path && |w| == s.asts[x].priority + 1
    decreases s.asts[x].priority
  {
    if s.asts[x].priority == 0 {
      RootIsLowest(g, root, s, x);
      w := [root];
    } else {
      assert Lifted(s.asts, x);
      var z: nat :| Lifts(s.asts, z, x);
      var v := WalkOfPriority(g, root, s, z);
      DepIsImport(g, root, s, z, x);
      w := v + [s.asts[x].path];
      forall i, j | 0 <= i && j == i + 1 < |w| ensures w[j] in g[w[i]] {
        assert w[i] == v[i];
        if j < |v| { assert v[j] in g[v[i]]; }
      }
    }
  }

  lemma DepIsImport(g: Graph, root: Path, s: State, z: nat, x: nat)
    requires Loading(g, root, s, [0]) && Lifts(s.asts, z, x)
    ensures s.asts[x].path in g[s.asts[z].path]
  {
    assert DepsFit(g, s, z);
    var j :| 0 <= j < |s.asts[z].deps| && s.asts[z].deps[j] == x - 1;
    assert s.imports[x - 1].path == g[s.asts[z].path][j];
  }

  lemma RootIsLowest(g: Graph, root: Path, s: State, x: nat)
    requires Loaded(g, root, s) && x < |s.asts| && s.asts[x].priority == 0
    ensures x == 0
  {
    if x > 0 {
      assert Imported(g, root, s.imports[x - 1].path);
      var w :| ImportWalk(g, root, s.imports[x - 1].path, w);
      var y := WalkIsLoaded(g, root, s, w, |w| - 1);
      OneEntryPerPath(g, root, s, x, y);
    }
  }

  lemma NoLongerChain(g: Graph, root: Path, s: State, i: nat, w: seq<Path>)
    requires Loaded(g, root, s) && i < |s.imports| && ImportWalk(g, root, s.imports[i].path, w)
    ensures |w| - 1 <= s.imports[i].priority
  {
    var x := WalkIsLoaded(g, root, s, w, |w| - 1);
    assert s.imports[i].path == s.asts[i + 1].path && s.imports[i].priority == s.asts[i + 1].priority;
    OneEntryPerPath(g, root, s, i + 1, x);
  }

  // A module's priority is the length of the longest chain of imports from
  // the root to it.
  lemma PriorityIsLongestChain(g: Graph, root: Path, s: State, i: nat)
    requires Loaded(g, root, s) && i < |s.imports|
    ensures forall w :: ImportWalk(g, root, s.imports[i].path, w) ==> |w| - 1 <= s.imports[i].priority
    ensures exists w :: ImportWalk(g, root, s.imports[i].path, w) && |w| - 1 == s.imports[i].priority
  {
    var p, n := s.imports[i].path, s.imports[i].priority;
    forall w | ImportWalk(g, root, p, w) ensures |w| - 1 <= n { NoLongerChain(g, root, s, i, w); }
    var w := LongestChain(g, root, s, i);
    assert ImportWalk(g, root, p, w);
  }

  lemma LongestChain(g: Graph, root: Path, s: State, i: nat) returns (w: seq<Path>)
    requires Loaded(g, root, s) && i < |s.imports|
    ensures ImportWalk(g, root, s.imports[i].path, w) && |w| - 1 == s.imports[i].priority
  {
    assert s.imports[i].path == s.asts[i + 1].path && s.imports[i].priority == s.asts[i + 1].priority;
    w := WalkOfPriority(g, root, s, i + 1);
    if |w| == 1 { RootIsLowest(g, root, s, i + 1); }
  }

  // Any order of the entries by descending priority, as the code generator
  // sorts them, puts every module after all it imports.
  lemma ImportsComeFirst(g: Graph, root: Path, s: State, order: seq<nat>, i: nat, j: nat)
    requires Loaded(g, root, s)
    requires forall k :: 0 <= k < |order| ==> order[k] < |s.imports|
    requires forall k, l :: 0 <= k < l < |order| ==> s.imports[order[k]].priority >= s.imports[order[l]].priority
    requires i < |order| && j < |order| && s.imports[order[i]].path in g[s.imports[order[j]].path]
    ensures i < j
  {
    var d := ImportIsDep(g, root, s, order[j] + 1, s.imports[order[i]].path);
    OneEntryPerPath(g, root, s, d + 1, order[i] + 1);
    assert Above(s.asts, order[j] + 1);
    assert s.imports[order[i]].priority > s.imports[order[j]].priority;
  }
}
