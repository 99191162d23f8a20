/** Loading a module and everything it imports, depth first, while keeping the
    priorities by which the modules are emitted. */
module Imports {
  type Path = string

  // The import declarations of every file, in order; paths are canonical.
  type Graph = map<Path, seq<Path>>

  datatype Ast = Ast(path: Path, priority: nat, deps: seq<nat>)

  // `imports[i]` belongs to AST `i + 1`; AST 0 is the root's and has no entry.
  datatype Import = Import(path: Path, priority: nat, initialized: bool)

  predicate Complete(g: Graph) { forall p, q :: p in g && q in g[p] ==> q in g }

  predicate Walk(g: Graph, w: seq<Path>) {
    |w| > 0 && (forall i :: 0 <= i < |w| ==> w[i] in g) &&
    forall i, j :: 0 <= i && j == i + 1 < |w| ==> w[j] in g[w[i]]
  }

  // Following imports from `root` one meets a file a second time.
  ghost predicate Cyclic(g: Graph, root: Path) { exists w :: CyclicWalk(g, root, w) }

  ghost predicate CyclicWalk(g: Graph, root: Path, w: seq<Path>) {
    Walk(g, w) && w[0] == root && exists i :: 0 <= i < |w| - 1 && w[i] == w[|w| - 1]
  }

  // Imported from `root`, directly or not.
  ghost predicate Imported(g: Graph, root: Path, p: Path) { exists w :: ImportWalk(g, root, p, w) }

  ghost predicate ImportWalk(g: Graph, root: Path, p: Path, w: seq<Path>) {
    Walk(g, w) && |w| > 1 && w[0] == root && w[|w| - 1] == p
  }

  // ----- Priorities -----

  // The modules `x` depends on have a higher priority.
  predicate Above(asts: seq<Ast>, x: nat)
    requires x < |asts|
  {
    forall d :: d in asts[x].deps ==> d + 1 < |asts| && asts[d + 1].priority > asts[x].priority
  }

  predicate Lifts(asts: seq<Ast>, z: nat, x: nat) {
    z < |asts| && 0 < x < |asts| && x - 1 in asts[z].deps && asts[x].priority == asts[z].priority + 1
  }

  // The priority of `x` is not higher than one of its importers asks for.
  ghost predicate Lifted(asts: seq<Ast>, x: nat) { exists z: nat :: Lifts(asts, z, x) }

  predicate SameFiles(asts: seq<Ast>, asts': seq<Ast>) {
    |asts| == |asts'| &&
    forall x :: 0 <= x < |asts| ==> asts'[x].path == asts[x].path && asts'[x].deps == asts[x].deps
  }

  predicate SameEntries(imports: seq<Import>, imports': seq<Import>) {
    |imports| == |imports'| &&
    forall i :: 0 <= i < |imports| ==>
      imports'[i].path == imports[i].path && imports'[i].initialized == imports[i].initialized
  }

  predicate OnlyRaised(asts: seq<Ast>, asts': seq<Ast>)
    requires |asts| == |asts'|
  {
    forall x :: 0 <= x < |asts| ==> asts'[x].priority >= asts[x].priority
  }

  // A set of modules closed under what they import.
  predicate Closed(asts: seq<Ast>, s: set<nat>) {
    forall x, d :: x in s && x < |asts| && d in asts[x].deps ==> d + 1 in s
  }

  predicate ChangesIn(asts: seq<Ast>, asts': seq<Ast>, s: set<nat>)
    requires |asts| == |asts'|
  {
    forall x :: 0 <= x < |asts| && asts'[x].priority != asts[x].priority ==> x in s
  }

  // What raising `a` may do: only to modules it reaches, and no more than
  // their importers ask for.
  ghost predicate RaisedFrom(asts: seq<Ast>, asts': seq<Ast>, a: nat, p: nat)
    requires SameFiles(asts, asts') && a < |asts|
  {
    && asts'[a].priority == p
    && OnlyRaised(asts, asts')
    && (forall x :: 0 <= x < |asts| && asts'[x].priority != asts[x].priority ==>
          Above(asts', x) && (x == a || Lifted(asts', x)))
    && (forall s: set<nat> {:trigger Closed(asts, s)} :: a in s && Closed(asts, s) ==> ChangesIn(asts, asts', s))
  }

  // A module whose own priority stays is still lifted by the importer that
  // lifted it: had that importer been raised, so had the module.
  lemma LiftedStays(asts: seq<Ast>, asts': seq<Ast>, x: nat)
    requires SameFiles(asts, asts') && OnlyRaised(asts, asts') && x < |asts| && Lifted(asts, x)
    requires forall z :: 0 <= z < |asts| && asts'[z].priority != asts[z].priority ==> Above(asts', z)
    requires asts'[x].priority == asts[x].priority
    ensures Lifted(asts', x)
  {
    var z: nat :| Lifts(asts, z, x);
    assert asts'[z].priority == asts[z].priority;
    assert Lifts(asts', z, x);
  }

  lemma AboveStays(asts: seq<Ast>, asts': seq<Ast>, x: nat)
    requires SameFiles(asts, asts') && OnlyRaised(asts, asts') && x < |asts| && Above(asts, x)
    requires asts'[x].priority == asts[x].priority
    ensures Above(asts', x)
  {
  }

  // While the imports of `a` are visited: `below` holds the modules finished
  // before `a`.
  ghost predicate Raising(was: seq<Ast>, asts: seq<Ast>, a: nat, p: nat, below: set<nat>) {
    && SameFiles(was, asts) && a < |asts| && asts[a].priority == p && OnlyRaised(was, asts)
    && (forall x :: x in below ==> x < |asts| && Above(asts, x))
    && (forall x :: 0 <= x < |asts| && asts[x].priority != was[x].priority ==>
          x == a || (x in below && Lifted(asts, x)))
    && (forall s: set<nat> {:trigger Closed(was, s)} :: a in s && Closed(was, s) ==> ChangesIn(was, asts, s))
  }

  lemma RaisingGoesOn(was: seq<Ast>, asts: seq<Ast>, asts': seq<Ast>, a: nat, p: nat, below: set<nat>, d: nat)
    requires Raising(was, asts, a, p, below) && a !in below
    requires d in asts[a].deps && d + 1 < |asts| && SameFiles(asts, asts') && RaisedFrom(asts, asts', d + 1, p + 1)
    requires forall x :: 0 <= x < |asts| && asts'[x].priority != asts[x].priority ==> x in below
    ensures Raising(was, asts', a, p, below)
  {
    forall x | x in below ensures Above(asts', x) {
      if asts'[x].priority == asts[x].priority { AboveStays(asts, asts', x); }
    }
    forall x | 0 <= x < |asts| && x != a && asts'[x].priority != was[x].priority
      ensures x in below && Lifted(asts', x)
    {
      if asts'[x].priority == asts[x].priority {
        LiftedStays(asts, asts', x);
      } else if x == d + 1 {
        assert Lifts(asts', a, x);
      }
    }
    forall s: set<nat> | a in s && Closed(was, s) ensures ChangesIn(was, asts', s) {
      assert Closed(asts, s) && d + 1 in s;
      assert ChangesIn(asts, asts', s) && ChangesIn(was, asts, s);
    }
  }

  lemma RaisingEnds(was: seq<Ast>, asts: seq<Ast>, a: nat, p: nat, below: set<nat>)
    requires Raising(was, asts, a, p, below)
    requires forall j :: 0 <= j < |asts[a].deps| ==>
               asts[a].deps[j] + 1 < |asts| && asts[asts[a].deps[j] + 1].priority > p
    ensures RaisedFrom(was, asts, a, p)
  {
    assert Above(asts, a);
  }

  // ----- The shape of the loader's state -----

  predicate Sizes(asts: seq<Ast>, imports: seq<Import>, finish: seq<nat>) {
    && |asts| == |imports| + 1 == |finish|
    && forall x, d :: 0 <= x < |asts| && d in asts[x].deps ==> d < |imports|
  }

  predicate Done(imports: seq<Import>, x: int) { 0 < x <= |imports| && imports[x - 1].initialized }

  // Modules only depend on modules that were finished earlier; `finish` gives
  // the order.
  predicate Ordered(asts: seq<Ast>, imports: seq<Import>, finish: seq<nat>)
    requires Sizes(asts, imports, finish)
  {
    forall x, d :: 0 <= x < |asts| && d in asts[x].deps ==>
      Done(imports, d + 1) && (Done(imports, x) ==> finish[d + 1] < finish[x])
  }

  predicate Synced(asts: seq<Ast>, imports: seq<Import>)
    requires |asts| == |imports| + 1
  {
    forall i :: 0 <= i < |imports| ==> imports[i].priority == asts[i + 1].priority
  }

  predicate Unchanged(asts: seq<Ast>, asts': seq<Ast>, imports: seq<Import>, imports': seq<Import>) {
    SameFiles(asts, asts') && SameEntries(imports, imports')
  }

  lemma ShapeStays(asts: seq<Ast>, asts': seq<Ast>, imports: seq<Import>, imports': seq<Import>, finish: seq<nat>)
    requires Sizes(asts, imports, finish) && Ordered(asts, imports, finish) && Unchanged(asts, asts', imports, imports')
    ensures Sizes(asts', imports', finish) && Ordered(asts', imports', finish)
  {
    forall x, d | 0 <= x < |asts'| && d in asts'[x].deps
      ensures Done(imports', d + 1) && (Done(imports', x) ==> finish[d + 1] < finish[x])
    {
      assert d in asts[x].deps;
      assert Done(imports, d + 1);
    }
  }

  function Below(asts: seq<Ast>, imports: seq<Import>, finish: seq<nat>, a: nat): set<nat>
    requires |asts| == |finish| && a < |asts|
  {
    set x: nat | x < |asts| && Done(imports, x) && finish[x] < finish[a]
  }

  // What `updatePriorities` needs: everything finished before `a` is in order.
  ghost predicate CanRaise(asts: seq<Ast>, imports: seq<Import>, finish: seq<nat>, a: nat, p: nat) {
    && Sizes(asts, imports, finish) && Ordered(asts, imports, finish) && Done(imports, a) && p > asts[a].priority
    && Synced(asts[a := asts[a].(priority := p)], imports)
    && forall x :: x in Below(asts, imports, finish, a) ==> Above(asts, x)
  }

  // What it achieves.
  ghost predicate Raised(asts: seq<Ast>, imports: seq<Import>, asts': seq<Ast>, imports': seq<Import>,
                         finish: seq<nat>, a: nat, p: nat)
    requires CanRaise(asts, imports, finish, a, p)
  {
    && Unchanged(asts, asts', imports, imports') && Synced(asts', imports') && RaisedFrom(asts, asts', a, p)
    && ChangesIn(asts, asts', {a} + Below(asts, imports, finish, a))
  }

  // Half way, after `i` of the modules `a` imports.
  ghost predicate Visiting(asts: seq<Ast>, imports: seq<Import>, asts': seq<Ast>, imports': seq<Import>,
                           finish: seq<nat>, a: nat, p: nat, i: nat)
    requires CanRaise(asts, imports, finish, a, p)
  {
    && Unchanged(asts, asts', imports, imports') && Synced(asts', imports')
    && Raising(asts, asts', a, p, Below(asts, imports, finish, a))
    && i <= |asts[a].deps|
    && forall j :: 0 <= j < i ==> asts[a].deps[j] + 1 < |asts| && asts'[asts[a].deps[j] + 1].priority > p
  }

  lemma VisitStarts(asts: seq<Ast>, imports: seq<Import>, finish: seq<nat>, a: nat, p: nat)
    requires CanRaise(asts, imports, finish, a, p)
    ensures Visiting(asts, imports, asts[a := asts[a].(priority := p)], imports, finish, a, p, 0)
  {
    var asts' := asts[a := asts[a].(priority := p)];
    forall x | x in Below(asts, imports, finish, a) ensures Above(asts', x) {
      AboveStays(asts, asts', x);
    }
  }

  lemma VisitDescends(was: seq<Ast>, entries: seq<Import>, asts: seq<Ast>, imports: seq<Import>, finish: seq<nat>,
                      a: nat, p: nat, i: nat)
    requires CanRaise(was, entries, finish, a, p) && Visiting(was, entries, asts, imports, finish, a, p, i)
    requires i < |was[a].deps|
    ensures
      var d := was[a].deps[i];
      && d < |imports| && asts[a].priority == p && finish[d + 1] < finish[a]
      && (imports[d].priority < p + 1 ==>
            CanRaise(asts, imports[d := imports[d].(priority := p + 1)], finish, d + 1, p + 1))
      && (imports[d].priority >= p + 1 ==> Visiting(was, entries, asts, imports, finish, a, p, i + 1))
  {
    var d := was[a].deps[i];
    assert d in was[a].deps;
    var imports' := imports[d := imports[d].(priority := p + 1)];
    ShapeStays(was, asts, entries, imports', finish);
    assert Below(asts, imports', finish, d + 1) <= Below(was, entries, finish, a);
  }

  // What `a` depends on was finished before it, and so was all before that.
  lemma DepIsBelow(asts: seq<Ast>, imports: seq<Import>, asts': seq<Ast>, imports': seq<Import>, finish: seq<nat>,
                   a: nat, d: nat)
    requires Sizes(asts, imports, finish) && Ordered(asts, imports, finish) && a < |asts| && Done(imports, a)
    requires d in asts[a].deps && Unchanged(asts, asts', imports, imports')
    ensures d + 1 in Below(asts, imports, finish, a)
    ensures Below(asts', imports', finish, d + 1) <= Below(asts, imports, finish, a)
  {
    assert Done(imports, d + 1) && finish[d + 1] < finish[a];
    forall x | x in Below(asts', imports', finish, d + 1) ensures x in Below(asts, imports, finish, a) {
      assert Done(imports, x);
    }
  }

  // The modules visited so far stay above `p`.
  lemma VisitedStay(was: seq<Ast>, asts: seq<Ast>, asts': seq<Ast>, a: nat, p: nat, i: nat)
    requires a < |was| && i < |was[a].deps| && |was| == |asts| && SameFiles(asts, asts') && was[a].deps[i] + 1 < |asts|
    requires RaisedFrom(asts, asts', was[a].deps[i] + 1, p + 1)
    requires forall j :: 0 <= j < i ==> was[a].deps[j] + 1 < |was| && asts[was[a].deps[j] + 1].priority > p
    ensures forall j :: 0 <= j < i + 1 ==> was[a].deps[j] + 1 < |was| && asts'[was[a].deps[j] + 1].priority > p
  {
  }

  lemma VisitReturns(was: seq<Ast>, entries: seq<Import>, asts: seq<Ast>, imports: seq<Import>, finish: seq<nat>,
                     a: nat, p: nat, i: nat, asts': seq<Ast>, imports': seq<Import>)
    requires CanRaise(was, entries, finish, a, p) && Visiting(was, entries, asts, imports, finish, a, p, i)
    requires i < |was[a].deps| && was[a].deps[i] < |imports|
    requires
      var d := was[a].deps[i];
      var raised := imports[d := imports[d].(priority := p + 1)];
      CanRaise(asts, raised, finish, d + 1, p + 1) && Raised(asts, raised, asts', imports', finish, d + 1, p + 1)
    ensures Visiting(was, entries, asts', imports', finish, a, p, i + 1)
  {
    var d := was[a].deps[i];
    var below := Below(was, entries, finish, a);
    var raised := imports[d := imports[d].(priority := p + 1)];
    DepIsBelow(was, entries, asts, raised, finish, a, d);
    assert ChangesIn(asts, asts', below);
    VisitedStay(was, asts, asts', a, p, i);
    RaisingGoesOn(was, asts, asts', a, p, below, d);
  }

  lemma VisitEnds(asts: seq<Ast>, imports: seq<Import>, asts': seq<Ast>, imports': seq<Import>, finish: seq<nat>,
                  a: nat, p: nat)
    requires CanRaise(asts, imports, finish, a, p)
    requires Visiting(asts, imports, asts', imports', finish, a, p, |asts[a].deps|)
    ensures Raised(asts, imports, asts', imports', finish, a, p)
  {
    RaisingEnds(asts, asts', a, p, Below(asts, imports, finish, a));
  }
}
