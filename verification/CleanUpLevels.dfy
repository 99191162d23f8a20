/** The clean-up level that code is being generated for, as blocks are entered
    and left. */
module CleanUpLevels {
  import opened Prelude
  import opened CleanUpSpec
  import opened CleanUpChain

  ghost predicate Owned(data: seq<Item>, taken: map<nat, CleanUp>, c: CleanUp) {
    forall i :: 0 <= i < |data| && data[i].name.Some? ==>
      data[i].name.value in taken && taken[data[i].name.value] == c
  }

  // A label that nobody has yet.
  lemma OwnedFurther(data: seq<Item>, taken: map<nat, CleanUp>, c: CleanUp, n: nat, d: CleanUp)
    requires Owned(data, taken, c) && n !in taken
    ensures Owned(data, taken[n := d], c)
  {
  }

  lemma OwnedByAdded(data: seq<Item>, data': seq<Item>, taken: map<nat, CleanUp>, c: CleanUp,
                     name: Option<nat>, stmt: Stmt)
    requires Owned(data, taken, c) && Added(data, data', name, stmt)
    requires Opens(data) && name.Some? ==> name.value in taken && taken[name.value] == c
    ensures Owned(data', taken, c)
  {
    assert forall i :: 0 <= i < |data| ==> data'[i].name == data[i].name;
  }

  lemma OwnedByUsed(data: seq<Item>, taken: map<nat, CleanUp>, c: CleanUp)
    requires Rising(c.async, data) && Owned(data, taken, c) && |data| > 0
    ensures Rising(c.async, UseLast(data)) && Owned(UseLast(data), taken, c)
  {
    forall i | 0 <= i < |data| ensures UseLast(data)[i].name == data[i].name {}
  }

  class State {
    var cleanUp: CleanUp
    // Every level of the function so far: the chain of the current one, and
    // those of the blocks that have been left; and whose label is whose.
    ghost var levels: set<CleanUp>
    ghost var taken: map<nat, CleanUp>

    ghost predicate Valid()
      reads this, levels
    {
      && cleanUp.Chain() <= levels && cleanUp.Valid()
      && (forall c :: c in levels ==> Owns(c))
      && forall l :: l in taken ==> l < cleanUp.labelIdx
    }

    ghost predicate Owns(c: CleanUp)
      reads this`taken, c`data
    {
      Rising(c.async, c.data) && Owned(c.data, taken, c)
    }

    // No two groups of a function share a label, whichever of its blocks they
    // belong to and in whatever order these were open.
    lemma LabelsDiffer(c: CleanUp, i: nat, d: CleanUp, j: nat)
      requires Valid() && c in levels && d in levels && (c != d || i != j)
      requires i < |c.data| && j < |d.data| && c.data[i].name.Some? && d.data[j].name.Some?
      ensures c.data[i].name != d.data[j].name
    {
      assert Owns(c) && Owns(d);
      if c == d { TwoGroups(c.async, c.data, i, j); }
    }

    constructor (kind: Kind, async: bool)
      ensures Valid() && cleanUp.parent == null && levels == {cleanUp}
    {
      var c := new CleanUp(kind, null, async);
      cleanUp := c;
      levels := {c};
      taken := map[];
    }

    // A block is entered,
    method Enter(kind: Kind, async: bool)
      requires Valid()
      modifies this
      ensures Valid() && cleanUp.parent == old(cleanUp) && fresh(cleanUp) && levels == old(levels) + {cleanUp}
      ensures cleanUp.kind == kind && cleanUp.async == async && cleanUp.data == []
    {
      var c := new CleanUp(kind, cleanUp, async);
      cleanUp := c;
      levels := levels + {c};
    }

    // adds to its level,
    method Add(stmt: Stmt)
      requires Valid()
      modifies this`taken, cleanUp`labelIdx, cleanUp`data, cleanUp`log, cleanUp.ancestors`labelIdx
      ensures Valid()
      ensures Added(old(cleanUp.data), cleanUp.data, old(cleanUp.NextName()), stmt)
    {
      ghost var name, was := cleanUp.NextName(), cleanUp.data;
      if name.Some? && Opens(was) { Take(name.value); }
      cleanUp.Add(stmt);
      OwnedByAdded(was, cleanUp.data, taken, cleanUp, name, stmt);
      assert cleanUp.Level();
      forall c | c in levels ensures Owns(c) {
        assert c != cleanUp ==> c.data == old(c.data);
      }
    }

    ghost method Take(n: nat)
      requires (forall c :: c in levels ==> Owns(c)) && n !in taken
      modifies this`taken
      ensures taken == old(taken)[n := cleanUp] && forall c :: c in levels ==> Owns(c)
    {
      forall c | c in levels ensures Owned(c.data, taken[n := cleanUp], c) {
        OwnedFurther(c.data, taken, c, n, cleanUp);
      }
      taken := taken[n := cleanUp];
    }

    // jumps to a label of its chain,
    method CurrentLabel() returns (r: Option<Option<nat>>)
      requires Valid() && cleanUp.Linked()
      modifies cleanUp`valueVarUsed, cleanUp.ancestors`valueVarUsed
      modifies cleanUp.Owners()`data, cleanUp.Owners()`handed
      ensures Valid()
    {
      ghost var o := cleanUp.Owner();
      if o != null { OwnedByUsed(o.data, taken, o); }
      r := cleanUp.CurrentLabel();
    }

    // and is left.
    method Leave()
      requires Valid() && cleanUp.parent != null
      modifies this`cleanUp
      ensures Valid() && cleanUp == old(cleanUp.parent)
    {
      cleanUp := cleanUp.parent;
    }
  }
}
