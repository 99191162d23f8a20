/** `CodegenCleanUp`: a stack of deferred statements per nesting level, turned
    into a chain of labels. */
module CleanUpChain {
  import opened Prelude
  import opened CleanUpSpec

  datatype Kind = Root | Block | Fn | Loop

  class CleanUp {
    const kind: Kind
    const parent: CleanUp?
    const async: bool
    var labelIdx: nat
    var valueVarUsed: bool
    var data: seq<Item>

    // The parents, how many there are, and the first label of this level.
    ghost const ancestors: set<CleanUp>
    ghost const depth: nat
    ghost const base: nat
    // Everything added so far, and how much of it had been added when a label
    // was handed out.
    ghost var log: seq<Stmt>
    ghost var handed: map<nat, nat>
    ghost var handedAsync: map<Counter, nat>

    ghost predicate Linked()
      decreases depth
    {
      if parent == null then ancestors == {}
      else parent.depth < depth && ancestors == {parent} + parent.ancestors && parent.Linked()
    }

    ghost function Chain(): set<CleanUp> { {this} + ancestors }

    // One level is in order.
    ghost predicate Level()
      reads this`labelIdx, this`data, this`log, this`handed, this`handedAsync
    {
      LevelOk(async, base, labelIdx, data, log, handed, handedAsync)
    }

    // The whole chain is in order, and this level is the one that adds: the
    // labels of its parents are older than its own.
    ghost predicate Valid()
      reads this`labelIdx, this`data, this`log, this`handed, this`handedAsync
      reads ancestors`labelIdx, ancestors`data, ancestors`log, ancestors`handed, ancestors`handedAsync
      decreases depth
    {
      && Level()
      && if parent == null then ancestors == {}
         else
           && parent.depth < depth && ancestors == {parent} + parent.ancestors
           && parent.Valid() && parent.labelIdx == labelIdx && parent.base <= base && OlderThan(parent, base)
    }

    static ghost predicate OlderThan(c: CleanUp, n: nat)
      reads c`data
    {
      forall i :: 0 <= i < |c.data| && c.data[i].name.Some? ==> c.data[i].name.value < n
    }

    lemma {:induction false} NotOwnAncestor(c: CleanUp)
      requires Linked() && c in ancestors
      ensures c.depth < depth && c.Linked()
      decreases depth
    {
      if c != parent { parent.NotOwnAncestor(c); }
    }

    lemma {:induction false} ValidIsLinked()
      requires Valid()
      ensures Linked() && this !in ancestors
      decreases depth
    {
      if parent != null { parent.ValidIsLinked(); }
      if this in ancestors { NotOwnAncestor(this); }
    }

    lemma {:induction false} ParentsAreOlder(c: CleanUp)
      requires Valid() && c in ancestors
      ensures OlderThan(c, base)
      decreases depth
    {
      if c != parent { parent.ParentsAreOlder(c); }
    }

    lemma {:induction false} ChainInOrder(c: CleanUp)
      requires Valid() && c in Chain()
      ensures c.Level() && c.labelIdx == labelIdx
      decreases depth
    {
      if c != this { parent.ChainInOrder(c); }
    }

    // No two groups of a chain share a label.
    lemma {:induction false} LabelsDiffer(c: CleanUp, i: nat, d: CleanUp, j: nat)
      requires Valid() && c in Chain() && d in Chain() && (c != d || i != j)
      requires i < |c.data| && j < |d.data| && c.data[i].name.Some? && d.data[j].name.Some?
      ensures c.data[i].name != d.data[j].name
      decreases depth
    {
      if c == this && d == this {
        TwoGroups(async, data, i, j);
      } else if c == this {
        ParentsAreOlder(d);
      } else if d == this {
        ParentsAreOlder(c);
      } else {
        parent.LabelsDiffer(c, i, d, j);
      }
    }

    constructor (kind: Kind, parent: CleanUp?, async: bool)
      requires parent != null ==> parent.Valid()
      ensures this.kind == kind && this.parent == parent && this.async == async
      ensures Valid() && data == [] && log == [] && handed == map[] && handedAsync == map[] && !valueVarUsed
      ensures labelIdx == if parent == null then 0 else parent.labelIdx
    {
      this.kind := kind;
      this.parent := parent;
      this.async := async;
      this.data := [];
      this.labelIdx := if parent == null then 0 else parent.labelIdx;
      this.base := if parent == null then 0 else parent.labelIdx;
      this.valueVarUsed := false;
      this.ancestors := if parent == null then {} else {parent} + parent.ancestors;
      this.depth := if parent == null then 0 else parent.depth + 1;
      this.log := [];
      this.handed := map[];
      this.handedAsync := map[];
    }

    // The label a new group would get.
    function NextName(): Option<nat>
      reads this`labelIdx
    {
      if async then None else Some(labelIdx)
    }

    // `add`.
    method Add(stmt: Stmt)
      requires Valid()
      modifies this`labelIdx, this`data, this`log, ancestors`labelIdx
      ensures Valid() && log == old(log) + [stmt]
      ensures Added(old(data), data, old(NextName()), stmt)
      ensures labelIdx == old(labelIdx) + if Opens(old(data)) && !async then 1 else 0
    {
      ghost var name := NextName();
      if Empty(data) || data[|data| - 1].labelUsed {
        Open();
      }
      AddedIs(old(data), data, name, stmt);
      Put(stmt);
    }

    method Open()
      requires Valid()
      modifies this`labelIdx, this`data, ancestors`labelIdx
      ensures Valid() && Opened(old(data), data, old(NextName()))
      ensures labelIdx == old(labelIdx) + if async then 0 else 1
    {
      if async { OpenAsync(); } else { OpenLabel(); }
    }

    // A new group: for an async level without a label, but with a counter.
    method OpenAsync()
      requires Valid() && async
      modifies this`data
      ensures Valid() && Opened(old(data), data, None)
    {
      ValidIsLinked();
      var counter := new Counter(1);
      OpenKeeps(data, Item(None, [], false, counter), handed, handedAsync);
      data := data + [Item(None, [], false, counter)];
    }

    // Else with the next label of the chain.
    method OpenLabel()
      requires Valid() && !async
      modifies this`labelIdx, this`data, ancestors`labelIdx
      ensures Valid() && Opened(old(data), data, Some(old(labelIdx))) && labelIdx == old(labelIdx) + 1
    {
      ValidIsLinked();
      var counter := new Counter(0);
      OpenKeeps(data, Item(Some(labelIdx), [], false, counter), handed, handedAsync);
      NamedOpens(base, labelIdx, data, counter);
      data := data + [Item(Some(labelIdx), [], false, counter)];
      labelIdx := labelIdx + 1;
      Bump();
    }

    // The first label free for this level is so for its parents.
    method Bump()
      requires Linked() && Level() && this !in ancestors
      requires parent != null ==>
        parent.Valid() && parent.labelIdx <= labelIdx && parent.base <= base && OlderThan(parent, base)
      modifies ancestors`labelIdx
      ensures Valid()
    {
      var p := parent;
      ghost var done: set<CleanUp> := {};
      while p != null
        invariant ancestors == done + if p == null then {} else {p} + p.ancestors
        invariant p != null ==> p.Linked()
        invariant forall c :: c in done ==> c.labelIdx == labelIdx
        decreases if p == null then 0 else 1 + p.depth
      {
        p.labelIdx := labelIdx;
        done := done + {p};
        p := p.parent;
      }
      if parent != null { parent.Bumped(labelIdx); }
    }

    // A level does not mind that labels after its own are taken.
    twostate lemma {:induction false} Bumped(n: nat)
      requires old(Valid()) && Linked() && old(labelIdx) <= n
      requires unchanged(this`data, this`log, this`handed, this`handedAsync) && labelIdx == n
      requires unchanged(ancestors`data, ancestors`log, ancestors`handed, ancestors`handedAsync)
      requires forall c :: c in ancestors ==> c.labelIdx == n
      ensures Valid() && Level()
      decreases depth
    {
      if parent != null { parent.Bumped(n); }
    }

    // The statement goes in front of the newest group.
    method Put(stmt: Stmt)
      requires Valid() && |data| > 0 && !data[|data| - 1].labelUsed
      modifies this`data, this`log
      ensures Valid() && log == old(log) + [stmt] && data == PutInto(old(data), stmt)
    {
      ValidIsLinked();
      var last := |data| - 1;
      PutKeeps(data, stmt, log, handed, handedAsync);
      data := data[last := data[last].(content := [stmt] + data[last].content)];
      log := log + [stmt];
    }

    static lemma PushFront(log: seq<Stmt>, body: seq<Stmt>, i: nat, was: seq<Stmt>)
      requires i < |body| && Reversed(log) == body[i + 1..] + Reversed(was)
      ensures Reversed(log + [body[i]]) == body[i..] + Reversed(was)
    {
      ReversedPush(log, body[i]);
      assert body[i..] == [body[i]] + body[i + 1..];
    }

    // `merge`: the statements of a block keep their order.
    method Merge(stmt: Stmt)
      requires Valid()
      modifies this`labelIdx, this`data, this`log, ancestors`labelIdx
      ensures Valid()
      ensures Reversed(log) == (if stmt.Compound? then stmt.body else [stmt]) + Reversed(old(log))
    {
      if stmt.Compound? {
        var i := |stmt.body|;
        while i > 0
          invariant 0 <= i <= |stmt.body| && Valid()
          invariant Reversed(log) == stmt.body[i..] + Reversed(old(log))
        {
          i := i - 1;
          PushFront(log, stmt.body, i, old(log));
          Add(stmt.body[i]);
        }
      } else {
        ReversedPush(log, stmt);
        Add(stmt);
      }
    }

    // The nearest level that has something to run.
    ghost function Owner(): (o: CleanUp?)
      requires Linked()
      reads this`data, ancestors`data
      ensures o != null ==> o in Chain() && !Empty(o.data)
      ensures o == null ==> forall c :: c in Chain() ==> Empty(c.data)
      decreases depth
    {
      if !Empty(data) then this
      else if parent == null then null
      else parent.Owner()
    }

    // `hasCleanUp`.
    predicate HasCleanUp(t: Kind)
      requires Linked()
      reads this`data, ancestors`data
      decreases depth
    {
      !Empty(data) || (kind != t && parent != null && parent.HasCleanUp(t))
    }

    // The levels a jump out of the nearest level of a kind leaves.
    ghost function UpTo(t: Kind): (r: set<CleanUp>)
      requires Linked()
      ensures this in r && r <= Chain()
      decreases depth
    {
      if kind == t || parent == null then {this} else {this} + parent.UpTo(t)
    }

    // A jump has something to clean up if and only if a level that it leaves
    // has something to run, and then the nearest such level is one of these.
    lemma {:induction false} JumpStaysInside(t: Kind)
      requires Linked()
      ensures HasCleanUp(t) <==> exists c :: c in UpTo(t) && !Empty(c.data)
      ensures HasCleanUp(t) ==> Owner() != null && Owner() in UpTo(t)
      decreases depth
    {
      if !Empty(data) {
        assert this in UpTo(t);
      } else if kind != t && parent != null {
        parent.JumpStaysInside(t);
        assert UpTo(t) == {this} + parent.UpTo(t);
      }
    }

    // Null statements are nothing to run.
    lemma SomethingAdded(t: Kind)
      requires Valid() && Linked()
      ensures HasCleanUp(t) <==> exists c, s :: c in UpTo(t) && s in c.log && s != Null
    {
      JumpStaysInside(t);
      forall c | c in UpTo(t) ensures Empty(c.data) <==> forall s :: s in c.log ==> s == Null {
        ChainInOrder(c);
        EmptyIsNull(c.data, c.log);
      }
    }

    ghost function Owners(): set<CleanUp>
      requires Linked()
      reads this`data, ancestors`data
    {
      var o := Owner();
      if o == null then {} else {o}
    }

    ghost predicate SameNames(was: seq<Item>)
      reads this`data
    {
      |data| == |was| && forall i :: 0 <= i < |data| ==> data[i].name == was[i].name
    }

    // The newest group of a level has been used; `was` are the groups before.
    ghost predicate Used(was: seq<Item>)
      reads this`labelIdx, this`data, this`log, this`handed, this`handedAsync
    {
      Level() && SameNames(was) && !Empty(data)
    }

    // That leaves the rest of the chain in order.
    twostate lemma {:induction false} ChainUsed(o: CleanUp?)
      requires old(Valid()) && Linked() && o == old(Owner()) && (o != null ==> o.Used(old(o.data)))
      requires unchanged(this`labelIdx, this`log, ancestors`labelIdx, ancestors`log)
      requires o != this ==> unchanged(this`data, this`handed, this`handedAsync)
      requires forall c :: c in ancestors && c != o ==> unchanged(c`data, c`handed, c`handedAsync)
      ensures Valid() && Owner() == o && SameNames(old(data))
      decreases depth
    {
      NotOwnParent();
      if o != this && parent != null { parent.ChainUsed(o); }
    }

    lemma {:induction false} NotOwnParent()
      requires Linked()
      ensures this !in ancestors
    {
      if this in ancestors { NotOwnAncestor(this); }
    }

    // `name` is the label of the newest group, and now used; what had been added
    // is on record, and so is what had been recorded.
    ghost predicate HandedOut(name: Option<nat>, was: seq<Item>, given: map<nat, nat>)
      reads this`data, this`log, this`handed
    {
      && |was| > 0 && data == UseLast(was) && name == was[|was| - 1].name
      && handed == (if name.Some? then given[name.value := |log|] else given) && Keeps(given, handed)
    }

    // `currentLabel`: the label of the newest group there; None where the
    // source raises an error.
    method CurrentLabel() returns (r: Option<Option<nat>>)
      requires Valid() && Linked()
      modifies this`valueVarUsed, ancestors`valueVarUsed, Owners()`data, Owners()`handed
      ensures Valid() && SameNames(old(data))
      ensures valueVarUsed
      ensures Owner() == old(Owner())
      ensures r.None? <==> Owner() == null
      ensures r.Some? ==> Owner().HandedOut(r.value, old(Owner().data), old(Owner().handed))
    {
      ghost var o := Owner();
      r := LabelOfOwner();
      ChainUsed(o);
    }

    method LabelOfOwner() returns (r: Option<Option<nat>>)
      requires Valid() && Linked()
      modifies this`valueVarUsed, ancestors`valueVarUsed, Owners()`data, Owners()`handed
      ensures valueVarUsed
      ensures
        var o := old(Owner());
        if o == null then r.None?
        else r.Some? && o.Used(old(o.data)) && o.HandedOut(r.value, old(o.data), old(o.handed))
      decreases depth
    {
      NotOwnParent();
      valueVarUsed := true;
      if !Empty(data) {
        var name := UseLabel();
        r := Some(name);
      } else if parent == null {
        r := None;
      } else {
        r := parent.LabelOfOwner();
      }
    }

    method UseLabel() returns (name: Option<nat>)
      requires Level() && !Empty(data)
      modifies this`data, this`handed
      ensures Used(old(data)) && HandedOut(name, old(data), old(handed))
    {
      UseKeepsLevel(async, base, labelIdx, data, log, handed, handedAsync);
      name := data[|data| - 1].name;
      if name.Some? {
        LevelUsesLabel(async, base, labelIdx, data, log, handed, handedAsync, name.value);
        handed := handed[name.value := |log|];
      }
      data := UseLast(data);
    }

    ghost predicate HandedOutAsync(counter: Counter, was: seq<Item>, given: map<Counter, nat>)
      reads this`data, this`log, this`handedAsync
    {
      && |was| > 0 && data == UseLast(was) && counter == was[|was| - 1].asyncCounter
      && handedAsync == given[counter := |log|] && Keeps(given, handedAsync)
    }

    // `currentLabelAsync`: the counter of that group, whose value is known only
    // when the code is generated.
    method CurrentLabelAsync() returns (r: Option<Counter>)
      requires Valid() && Linked()
      modifies this`valueVarUsed, ancestors`valueVarUsed, Owners()`data, Owners()`handedAsync
      ensures Valid() && SameNames(old(data))
      ensures valueVarUsed
      ensures Owner() == old(Owner())
      ensures r.None? <==> Owner() == null
      ensures r.Some? ==> Owner().HandedOutAsync(r.value, old(Owner().data), old(Owner().handedAsync))
    {
      ghost var o := Owner();
      r := CounterOfOwner();
      ChainUsed(o);
    }

    method CounterOfOwner() returns (r: Option<Counter>)
      requires Valid() && Linked()
      modifies this`valueVarUsed, ancestors`valueVarUsed, Owners()`data, Owners()`handedAsync
      ensures valueVarUsed
      ensures
        var o := old(Owner());
        if o == null then r.None?
        else r.Some? && o.Used(old(o.data)) && o.HandedOutAsync(r.value, old(o.data), old(o.handedAsync))
      decreases depth
    {
      valueVarUsed := true;
      if !Empty(data) {
        var counter := UseCounter();
        r := Some(counter);
      } else if parent == null {
        r := None;
      } else {
        NotOwnParent();
        r := parent.CounterOfOwner();
      }
    }

    method UseCounter() returns (counter: Counter)
      requires Level() && !Empty(data)
      modifies this`data, this`handedAsync
      ensures Used(old(data)) && HandedOutAsync(counter, old(data), old(handedAsync))
    {
      UseKeepsLevel(async, base, labelIdx, data, log, handed, handedAsync);
      counter := data[|data| - 1].asyncCounter;
      LevelUsesCounter(async, base, labelIdx, data, log, handed, handedAsync, counter);
      handedAsync := handedAsync[counter := |log|];
      data := UseLast(data);
    }

    // A jump out of the nearest level of kind `t`, as code is generated for it:
    // it goes to a label if and only if a level that it leaves has something to
    // run, and to the label of the nearest such level.
    method Jump(t: Kind) returns (r: Option<Option<nat>>)
      requires Valid() && Linked()
      modifies this`valueVarUsed, ancestors`valueVarUsed, Owners()`data, Owners()`handed
      ensures Valid()
      ensures r.Some? <==> exists c, s :: c in UpTo(t) && s in old(c.log) && s != Null
      ensures r.Some? <==> exists c :: c in UpTo(t) && !Empty(old(c.data))
      ensures r.Some? ==> Owner() == old(Owner()) && Owner() != null && Owner() in UpTo(t)
      ensures r.Some? ==> Owner().HandedOut(r.value, old(Owner().data), old(Owner().handed))
    {
      SomethingAdded(t);
      JumpStaysInside(t);
      r := None;
      if HasCleanUp(t) { r := CurrentLabel(); }
    }

    method JumpAsync(t: Kind) returns (r: Option<Counter>)
      requires Valid() && Linked()
      modifies this`valueVarUsed, ancestors`valueVarUsed, Owners()`data, Owners()`handedAsync
      ensures Valid()
      ensures r.Some? <==> exists c, s :: c in UpTo(t) && s in old(c.log) && s != Null
      ensures r.Some? <==> exists c :: c in UpTo(t) && !Empty(old(c.data))
      ensures r.Some? ==> Owner() == old(Owner()) && Owner() != null && Owner() in UpTo(t)
      ensures r.Some? ==> Owner().HandedOutAsync(r.value, old(Owner().data), old(Owner().handedAsync))
    {
      SomethingAdded(t);
      JumpStaysInside(t);
      r := None;
      if HasCleanUp(t) { r := CurrentLabelAsync(); }
    }

    // `gen`.  From the top the appended code runs everything added, newest
    // first; from a label, what had been added when it was handed out.
    method Gen(code: seq<Line>) returns (out: seq<Line>)
      requires Level() && !async
      ensures out == code + Emit(data)
      ensures FromTop(Emit(data)) == Reversed(log)
      ensures forall l :: l in handed ==> handed[l] <= |log| && FromLabel(Emit(data), l) == Reversed(log[..handed[l]])
    {
      out := code;
      var i := |data|;
      while i > 0
        invariant 0 <= i <= |data| && out + EmitTo(data, i) == code + Emit(data)
      {
        i := i - 1;
        ghost var before := out;
        if data[i].labelUsed { out := out + [Mark(data[i].name)]; }
        if data[i].content != [] { out := out + Runs(data[i].content); }
        EmitNext(data, i, before, code);
        assert out == before + EmitItem(data[i]);
      }
      LabelsRun();
    }

    lemma LabelsRun()
      requires Level() && !async
      ensures FromTop(Emit(data)) == Reversed(log)
      ensures forall l :: l in handed ==> handed[l] <= |log| && FromLabel(Emit(data), l) == Reversed(log[..handed[l]])
    {
      DeferStack(base, labelIdx, data, log, handed, handedAsync, 0);
      forall l | l in handed ensures handed[l] <= |log| && FromLabel(Emit(data), l) == Reversed(log[..handed[l]]) {
        DeferStack(base, labelIdx, data, log, handed, handedAsync, l);
      }
    }

    ghost function Counters(): set<Counter>
      reads this`data
    {
      set m | 0 <= m < |data| :: data[m].asyncCounter
    }

    ghost function Values(): (v: seq<nat>)
      reads this, Counters()
      ensures |v| == |data|
    {
      seq(|data|, m requires 0 <= m < |data| reads this, Counters() => data[m].asyncCounter.value)
    }

    // `genAsync`: the same for a switch whose cases fall through.
    method GenAsync(given: seq<Case>, number: nat) returns (cases: seq<Case>, counter: nat)
      requires Level() && async && Numbered(given, number)
      modifies Counters()
      ensures Numbered(cases, counter)
      ensures ExtendsBy(given, cases, Reversed(log))
      ensures forall c :: c in handedAsync ==> RunsHanded(cases, c)
    {
      cases, counter := GenGroups(given, number);
      HandedRuns(cases);
    }

    // Its loop over the groups, newest first.
    method GenGroups(given: seq<Case>, number: nat) returns (cases: seq<Case>, counter: nat)
      requires Level() && async && Numbered(given, number)
      modifies Counters()
      ensures Numbered(cases, counter) && ExtendsBy(given, cases, Reversed(log)) && Emitted(data, Values(), cases, 0)
    {
      cases, counter := given, number;
      var i := |data|;
      while i > 0
        invariant 0 <= i <= |data| && Numbered(cases, counter)
        invariant ExtendsBy(given, cases, Between(data, i, |data|)) && Emitted(data, Values(), cases, i)
      {
        i := i - 1;
        ghost var before, values := cases, Values();
        cases, counter := GenItem(cases, counter, i);
        ExtendsFurther(given, before, cases, data, i);
        forall m | i < m < |data| ensures Values()[m] == values[m] { TwoGroups(async, data, i, m); }
        EmittedFurther(data, values, Values(), before, cases, i);
      }
      AllIsBody(data, |data|);
    }

    // Entering at the case a counter stands for.
    ghost predicate RunsHanded(cases: seq<Case>, c: Counter)
      requires c in handedAsync
      reads this`log, this`handedAsync, c
    {
      && handedAsync[c] <= |log| && HasCase(cases, c.value)
      && Real(FromCase(cases, c.value)) == Real(Reversed(log[..handedAsync[c]]))
    }

    lemma HandedRuns(cases: seq<Case>)
      requires Level() && Emitted(data, Values(), cases, 0)
      ensures forall c :: c in handedAsync ==> RunsHanded(cases, c)
    {
      forall c | c in handedAsync ensures RunsHanded(cases, c) {
        var m: nat :| HandedAsyncAt(data, m, c, handedAsync[c]);
        EmittedOldest(data, log, Values(), cases, m);
      }
    }

    // The loop body of `genAsync`.
    method GenItem(given: seq<Case>, number: nat, i: nat) returns (cases: seq<Case>, counter: nat)
      requires Numbered(given, number) && i < |data|
      modifies data[i].asyncCounter
      ensures Numbered(cases, counter) && ExtendsBy(given, cases, data[i].content)
      ensures
        var v := data[i].asyncCounter.value;
        data[i].labelUsed ==> HasCase(cases, v) && Real(FromCase(cases, v)) == Real(data[i].content)
    {
      cases, counter := given, number;
      if data[i].labelUsed {
        IncreaseOpens(cases, counter);
        var r := Increase(cases, counter);
        cases, counter := r.0, r.1;
        data[i].asyncCounter.value := counter;
        assert cases[|cases| - 1].number == counter;
        RealAppend(FromCase(cases, counter), data[i].content);
      }
      ghost var current := cases;
      MergeExtends(current, counter, data[i].content);
      if data[i].content != [] { cases := MergeInto(cases, data[i].content); }
    }
  }
}
