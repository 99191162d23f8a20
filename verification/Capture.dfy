/** The capture analysis as it runs: a stack of variables with frames and code
    names, and marks that travel from inner functions outwards. */
module Capture {
  import opened Prelude
  import opened CaptureSpec

  // Code names: of a variable its name with a number behind, of a function
  // that of its type, and those of the built-in variables.
  datatype Code = VarCode(name: string, number: nat) | FnCode(number: nat) | BuiltinCode(name: string)

  datatype Variable = Variable(name: string, code: Code, builtin: bool, ctxIgnored: bool, frame: nat)

  datatype Entry = Entry(v: Variable, marked: bool)

  predicate Eligible(v: Variable) { !v.builtin && !v.ctxIgnored }

  function Names(items: seq<Variable>): Env { seq(|items|, i requires 0 <= i < |items| => items[i].name) }

  predicate Different(items: seq<Variable>) {
    forall i, j :: 0 <= i < j < |items| ==> items[i].code != items[j].code
  }

  // `entries` are variables in scope that can be captured.
  predicate Stacked(entries: seq<Entry>, items: seq<Variable>) {
    && (forall i :: 0 <= i < |entries| ==> entries[i].v in items && Eligible(entries[i].v))
    && forall i, j :: 0 <= i < j < |entries| ==> entries[i].v.code != entries[j].v.code
  }

  // `v` is one of the variables at the positions `uses`.
  ghost predicate Hit(items: seq<Variable>, uses: set<nat>, v: Variable) {
    exists p :: p in uses && p < |items| && items[p].code == v.code
  }

  // Exactly the variables that were hit are marked in addition.
  ghost predicate Marked(entries: seq<Entry>, entries': seq<Entry>, items: seq<Variable>, uses: set<nat>) {
    |entries'| == |entries| &&
    forall i :: 0 <= i < |entries| ==>
      entries'[i].v == entries[i].v &&
      (entries'[i].marked <==> entries[i].marked || Hit(items, uses, entries[i].v))
  }

  // The variables `stack` are those with a mark.
  ghost predicate Snapped(stack: seq<Variable>, entries: seq<Entry>) {
    forall v :: v in stack <==> exists i :: 0 <= i < |entries| && entries[i].marked && entries[i].v == v
  }

  lemma MarkedNone(entries: seq<Entry>, items: seq<Variable>)
    ensures Marked(entries, entries, items, {})
  {
  }

  // One analysis after the other, the second with more variables in scope.
  lemma MarkedTwice(entries: seq<Entry>, entries1: seq<Entry>, entries2: seq<Entry>, items: seq<Variable>,
                    items1: seq<Variable>, uses1: set<nat>, uses2: set<nat>)
    requires Stacked(entries, items) && items <= items1 && Different(items1)
    requires Marked(entries, entries1, items, uses1) && Marked(entries1, entries2, items1, uses2)
    ensures Marked(entries, entries2, items, uses1 + uses2)
  {
    forall i | 0 <= i < |entries|
      ensures entries2[i].marked <==> entries[i].marked || Hit(items, uses1 + uses2, entries[i].v)
    {
      HitEither(items, items1, uses1, uses2, entries[i].v);
    }
  }

  lemma HitEither(items: seq<Variable>, items1: seq<Variable>, uses1: set<nat>, uses2: set<nat>, v: Variable)
    requires items <= items1 && Different(items1) && v in items
    ensures Hit(items, uses1 + uses2, v) <==> Hit(items, uses1, v) || Hit(items1, uses2, v)
  {
    var q :| 0 <= q < |items| && items[q] == v;
    assert items1[q] == v;
    if Hit(items1, uses2, v) {
      var p :| p in uses2 && p < |items1| && items1[p].code == v.code;
      assert p == q;
      assert p in uses1 + uses2 && items[p].code == v.code;
    }
    if Hit(items, uses1, v) {
      var p :| p in uses1 && p < |items| && items[p].code == v.code;
      assert p in uses1 + uses2;
    }
    if Hit(items, uses1 + uses2, v) {
      var p :| p in uses1 + uses2 && p < |items| && items[p].code == v.code;
      if p in uses2 { assert items1[p].code == v.code; }
    }
  }

  // Positions of variables that are out of scope again do not count.
  lemma MarkedOuter(entries: seq<Entry>, entries': seq<Entry>, items: seq<Variable>, uses: set<nat>)
    requires Marked(entries, entries', items, uses)
    ensures Marked(entries, entries', items, Outer(uses, |items|))
  {
    forall i | 0 <= i < |entries|
      ensures Hit(items, uses, entries[i].v) <==> Hit(items, Outer(uses, |items|), entries[i].v)
    {
      if Hit(items, uses, entries[i].v) {
        var p :| p in uses && p < |items| && items[p].code == entries[i].v.code;
        assert p in Outer(uses, |items|);
      }
    }
  }

  lemma StackedGrows(entries: seq<Entry>, entries': seq<Entry>, items: seq<Variable>, items': seq<Variable>)
    requires Stacked(entries, items) && items <= items'
    requires |entries'| == |entries| && forall i :: 0 <= i < |entries| ==> entries'[i].v == entries[i].v
    ensures Stacked(entries', items')
  {
    forall i | 0 <= i < |entries| ensures entries'[i].v in items' {
      var q :| 0 <= q < |items| && items[q] == entries[i].v;
      assert items'[q] == entries[i].v;
    }
  }

  class VarStack {
    var items: seq<Entry>

    constructor (vars: seq<Variable>)
      ensures |items| == |vars| && forall i :: 0 <= i < |vars| ==> items[i] == Entry(vars[i], false)
    {
      items := seq(|vars|, i requires 0 <= i < |vars| => Entry(vars[i], false));
    }

    // `mark`: the first entry with the variable's code name.
    method Mark(v: Variable)
      requires forall i, j :: 0 <= i < j < |items| ==> items[i].v.code != items[j].v.code
      modifies this
      ensures |items| == |old(items)|
      ensures forall i :: 0 <= i < |items| ==>
        items[i].v == old(items)[i].v &&
        (items[i].marked <==> old(items)[i].marked || old(items)[i].v.code == v.code)
    {
      var i := 0;
      while i < |items|
        invariant 0 <= i <= |items| && items == old(items)
        invariant forall j :: 0 <= j < i ==> items[j].v.code != v.code
      {
        if items[i].v.code == v.code {
          items := items[i := items[i].(marked := true)];
          return;
        }
        i := i + 1;
      }
    }

    // `mark` of a list.
    method MarkAll(vars: seq<Variable>)
      requires forall i, j :: 0 <= i < j < |items| ==> items[i].v.code != items[j].v.code
      modifies this
      ensures |items| == |old(items)|
      ensures forall i :: 0 <= i < |items| ==>
        items[i].v == old(items)[i].v &&
        (items[i].marked <==> old(items)[i].marked || exists w :: w in vars && w.code == old(items)[i].v.code)
    {
      var k := 0;
      while k < |vars|
        invariant 0 <= k <= |vars| && |items| == |old(items)|
        invariant forall i :: 0 <= i < |items| ==>
          items[i].v == old(items)[i].v &&
          (items[i].marked <==> old(items)[i].marked || exists w :: w in vars[..k] && w.code == old(items)[i].v.code)
      {
        Mark(vars[k]);
        assert vars[..k + 1] == vars[..k] + [vars[k]];
        k := k + 1;
      }
      assert vars[..|vars|] == vars;
    }

    // `snapshot`.
    method Snapshot() returns (r: seq<Variable>)
      ensures Snapped(r, items)
    {
      r := [];
      var i := 0;
      while i < |items|
        invariant 0 <= i <= |items|
        invariant forall v :: v in r <==> exists j :: 0 <= j < i && items[j].marked && items[j].v == v
      {
        if items[i].marked { r := r + [items[i].v]; }
        i := i + 1;
      }
    }
  }

  // ----- `VarMap` -----

  predicate Framed(items: seq<Variable>, frame: nat) {
    && (forall i :: 0 <= i < |items| ==> items[i].frame <= frame)
    && forall i, j :: 0 <= i < j < |items| ==> items[i].frame <= items[j].frame
  }

  function CodesOf(items: seq<Variable>): set<Code> { set i | 0 <= i < |items| :: items[i].code }

  lemma CodesAppend(items: seq<Variable>, v: Variable)
    ensures CodesOf(items + [v]) == CodesOf(items) + {v.code}
  {
    var all := items + [v];
    forall c | c in CodesOf(items) ensures c in CodesOf(all) {
      var i :| 0 <= i < |items| && items[i].code == c;
      assert all[i].code == c;
    }
    assert all[|items|].code == v.code;
  }

  function Numbered(name: string, n: nat): set<Code> { set i: nat | i < n :: VarCode(name, i) }

  lemma {:induction false} NumberedSize(name: string, n: nat)
    ensures |Numbered(name, n)| == n
  {
    if n > 0 {
      NumberedSize(name, n - 1);
      assert Numbered(name, n) == Numbered(name, n - 1) + {VarCode(name, n - 1)};
    }
  }

  lemma {:induction false} CodesSize(items: seq<Variable>)
    ensures |CodesOf(items)| <= |items|
  {
    if items != [] {
      var front, last := items[..|items| - 1], items[|items| - 1];
      CodesSize(front);
      assert items == front + [last];
      assert CodesOf(items) == CodesOf(front) + {last.code};
    }
  }

  lemma SubsetSize(a: set<Code>, b: set<Code>)
    requires a <= b
    ensures |a| <= |b|
  {
    assert b == a + (b - a);
    assert |b| == |a| + |b - a|;
  }

  // As many numbers as there are variables cannot all be taken.
  lemma SomeNumberFree(items: seq<Variable>, name: string, n: nat)
    requires forall i: nat :: i < n ==> VarCode(name, i) in CodesOf(items)
    ensures n <= |items|
  {
    NumberedSize(name, n);
    CodesSize(items);
    SubsetSize(Numbered(name, n), CodesOf(items));
  }

  class VarMap {
    var items: seq<Variable>
    var frame: nat

    constructor (items: seq<Variable>)
      requires Framed(items, 0) && Different(items)
      ensures this.items == items && frame == 0
    {
      this.items := items;
      frame := 0;
    }

    ghost predicate Valid()
      reads this
    {
      Framed(items, frame) && Different(items)
    }

    // `add`.
    method Add(name: string, code: Code)
      requires Valid() && code !in CodesOf(items)
      modifies this`items
      ensures Valid() && items == old(items) + [Variable(name, code, false, false, frame)]
    {
      items := items + [Variable(name, code, false, false, frame)];
    }

    // `get`: the innermost variable of the name.
    method Get(name: string) returns (r: Option<Variable>)
      ensures r.None? <==> name !in Names(items)
      ensures r.Some? ==> r.value == items[Last(Names(items), name)]
    {
      var i := |items|;
      while i > 0
        invariant 0 <= i <= |items| && forall j :: i <= j < |items| ==> items[j].name != name
      {
        i := i - 1;
        if items[i].name == name {
          assert Names(items)[i] == name;
          return Some(items[i]);
        }
      }
      r := None;
    }

    method Has(name: string) returns (r: bool)
      ensures r <==> name in Names(items)
    {
      var v := Get(name);
      r := v.Some?;
    }

    // `name`: the first number that makes a code name nobody has.
    method FreshName(name: string) returns (code: Code)
      ensures code.VarCode? && code !in CodesOf(items)
    {
      var i: nat := 0;
      while true
        invariant forall j: nat :: j < i ==> VarCode(name, j) in CodesOf(items)
        invariant 0 <= i <= |items|
        decreases |items| - i
      {
        var test, exists_, k := VarCode(name, i), false, 0;
        while k < |items| && !exists_
          invariant 0 <= k <= |items| && (exists_ <==> exists j :: 0 <= j < k && items[j].code == test)
        {
          if items[k].code == test { exists_ := true; }
          k := k + 1;
        }
        if !exists_ {
          assert forall j :: 0 <= j < |items| ==> items[j].code != test;
          return test;
        }
        SomeNumberFree(items, name, i + 1);
        i := i + 1;
      }
    }

    // `save` and `restore`.
    method Save()
      requires Valid()
      modifies this`frame
      ensures Valid() && frame == old(frame) + 1
    {
      frame := frame + 1;
    }

    method Restore(ghost n: nat)
      requires Valid() && frame > 0 && n <= |items|
      requires forall i :: 0 <= i < |items| ==> (items[i].frame == frame <==> n <= i)
      modifies this
      ensures Valid() && items == old(items[..n]) && frame == old(frame) - 1
    {
      var i := 0;
      while i < |items|
        invariant 0 <= i <= |items| && n <= |items| && i <= n && frame == old(frame)
        invariant items[..n] == old(items[..n])
        invariant forall j :: 0 <= j < |items| ==> (items[j].frame == frame <==> n <= j)
        decreases |items| - i
      {
        if items[i].frame == frame {
          items := items[..i] + items[i + 1..];
        } else {
          i := i + 1;
        }
      }
      assert items == items[..n];
      frame := frame - 1;
    }

    // `varStack`: everything in scope that can be captured, innermost first.
    method Stack() returns (stack: VarStack)
      requires Valid()
      ensures fresh(stack) && Stacked(stack.items, items)
      ensures forall i :: 0 <= i < |stack.items| ==> !stack.items[i].marked
      ensures forall v :: v in items && Eligible(v) ==> exists i :: 0 <= i < |stack.items| && stack.items[i].v == v
    {
      var result: seq<Variable> := [];
      var i := |items|;
      while i > 0
        invariant 0 <= i <= |items|
        invariant forall j :: 0 <= j < |result| ==> result[j] in items[i..] && Eligible(result[j])
        invariant Different(result)
        invariant forall j :: i <= j < |items| && Eligible(items[j]) ==> items[j] in result
      {
        i := i - 1;
        if Eligible(items[i]) {
          var found, k := false, 0;
          while k < |result| && !found
            invariant 0 <= k <= |result| && (found <==> exists j :: 0 <= j < k && result[j].code == items[i].code)
          {
            if result[k].code == items[i].code { found := true; }
            k := k + 1;
          }
          assert !found;
          result := result + [items[i]];
        }
      }
      stack := new VarStack(result);
    }
  }
}
