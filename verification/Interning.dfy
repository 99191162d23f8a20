/** `TypeMap`: types are hash-consed by the first stored type that matches. */
module Interning {
  import opened Prelude
  import opened TypeMatch
  import opened TypeEquivalence
  import opened TypeNormal

  // What `createRef`, `createArr` and `createOpt` build from their argument,
  // and `createFn` from a signature.
  datatype Shape = RefShape | ArrShape | OptShape | FnShape

  function Build(shape: Shape, t: Type): Type {
    match shape
    case RefShape => Type(Ref(t), false)
    case ArrShape => Type(Array(t), false)
    case OptShape => Type(Opt(t), false)
    case FnShape => Type(t.body, false)
  }

  predicate HasShape(shape: Shape, t: Type) {
    match shape
    case RefShape => t.body.Ref?
    case ArrShape => t.body.Array?
    case OptShape => t.body.Opt?
    case FnShape => t.body.Fn?
  }

  function Argument(shape: Shape, t: Type): Type
    requires HasShape(shape, t)
  {
    if shape.ArrShape? then t.body.elem else if shape.FnShape? then t else t.body.arg
  }

  // The test of the search loops: `it` is what would be built from `t`.
  predicate Found(shape: Shape, it: Type, t: Type) {
    HasShape(shape, it) &&
    (if shape.FnShape? then !it.builtin else Argument(shape, it).builtin == t.builtin) &&
    Match(it, Build(shape, t), true)
  }

  // The first stored type that passes; a position stands for a pointer.
  predicate First(shape: Shape, items: seq<Type>, t: Type, p: nat) {
    p < |items| && Found(shape, items[p], t) && forall q :: 0 <= q < p ==> !Found(shape, items[q], t)
  }

  // Two arguments that must not be told apart.
  predicate Alike(shape: Shape, t: Type, t': Type) {
    Match(t, t', true) && (!shape.FnShape? ==> t.builtin == t'.builtin)
  }

  lemma MatchBuilt(shape: Shape, it: Type, t: Type)
    requires HasShape(shape, it) && (shape.FnShape? ==> t.body.Fn?)
    ensures Match(it, Build(shape, t), true) == Match(Argument(shape, it), t, true)
  {
    MatchActual(it, Build(shape, t), true);
    MatchActual(Argument(shape, it), t, true);
  }

  lemma BuiltIsFound(shape: Shape, t: Type)
    requires shape.FnShape? ==> t.body.Fn?
    ensures Found(shape, Build(shape, t), t)
  {
    MatchReflexive(Build(shape, t), true);
  }

  lemma DistinctArgument(shape: Shape, it: Type)
    requires HasShape(shape, it) && Distinct(it)
    ensures Distinct(Argument(shape, it))
  {
  }

  // Passing the test for `t` and for a type alike is the same.
  lemma FoundAlike(shape: Shape, it: Type, t: Type, t': Type)
    requires (shape.FnShape? ==> t.body.Fn? && t'.body.Fn?) && Alike(shape, t, t') && Found(shape, it, t)
    ensures Found(shape, it, t')
  {
    MatchBuilt(shape, it, t);
    MatchBuilt(shape, it, t');
    MatchTransitive(Argument(shape, it), t, t', true);
  }

  // Two calls, however far apart, return the same pointer if and only if their
  // arguments are alike: types are only ever added behind the others.
  lemma SamePointer(shape: Shape, items: seq<Type>, t: Type, p: nat, items': seq<Type>, t': Type, p': nat)
    requires First(shape, items, t, p) && First(shape, items', t', p') && items <= items'
    requires Distinct(t) && Distinct(t') && (forall q :: 0 <= q < |items'| ==> Distinct(items'[q]))
    requires shape.FnShape? ==> t.body.Fn? && t'.body.Fn?
    ensures p == p' <==> Alike(shape, t, t')
    ensures p == p' <==> Normal(t, true) == Normal(t', true) && (!shape.FnShape? ==> t.builtin == t'.builtin)
  {
    MatchIsNormal(t, t', true);
    if p == p' {
      var it := items[p];
      var x := Argument(shape, it);
      assert Distinct(items'[p]);
      MatchBuilt(shape, it, t);
      MatchBuilt(shape, it, t');
      DistinctArgument(shape, it);
      MatchSymmetric(x, t, true);
      MatchTransitive(t, x, t', true);
    }
    if Alike(shape, t, t') {
      MatchSymmetric(t, t', true);
      FoundAlike(shape, items'[p], t, t');
      if p' < p { FoundAlike(shape, items[p'], t', t); }
    }
  }

  // ----- Calls in any order -----

  // One call: its argument without aliases, and the position it returned.
  datatype Call = Call(shape: Shape, arg: Type, p: nat)

  predicate WellShaped(c: Call) { c.shape.FnShape? ==> c.arg.body.Fn? }

  predicate AllDistinct(ts: seq<Type>) { forall q :: 0 <= q < |ts| ==> Distinct(ts[q]) }

  // What a call returned is what it would still return.
  predicate Stands(c: Call, items: seq<Type>) { WellShaped(c) && First(c.shape, items, c.arg, c.p) }

  lemma StandsFurther(c: Call, items: seq<Type>, items': seq<Type>)
    requires Stands(c, items) && items <= items'
    ensures Stands(c, items')
  {
    assert forall q :: 0 <= q < |items| ==> items'[q] == items[q];
  }

  lemma BuiltIsDistinct(shape: Shape, t: Type)
    requires Distinct(t)
    ensures Distinct(Build(shape, t))
  {
  }

  // No union that came in, as an argument or otherwise, has two matching members.
  predicate Regular(calls: seq<Call>, others: seq<Type>) {
    (forall i :: 0 <= i < |calls| ==> Distinct(calls[i].arg)) && AllDistinct(others)
  }

  predicate InOrder(items: seq<Type>, calls: seq<Call>, others: seq<Type>) {
    (forall i :: 0 <= i < |calls| ==> Stands(calls[i], items)) && (Regular(calls, others) ==> AllDistinct(items))
  }

  lemma CallKeepsOrder(items: seq<Type>, calls: seq<Call>, others: seq<Type>, c: Call, items': seq<Type>)
    requires InOrder(items, calls, others) && Stands(c, items')
    requires items' == items || items' == items + [Build(c.shape, c.arg)]
    ensures InOrder(items', calls + [c], others)
  {
    forall i | 0 <= i < |calls| + 1 ensures Stands((calls + [c])[i], items') {
      if i < |calls| { StandsFurther(calls[i], items, items'); }
    }
    if Regular(calls + [c], others) {
      assert forall i :: 0 <= i < |calls| ==> calls[i] == (calls + [c])[i];
      assert (calls + [c])[|calls|] == c;
      BuiltIsDistinct(c.shape, c.arg);
    }
  }

  lemma AddKeepsOrder(items: seq<Type>, calls: seq<Call>, others: seq<Type>, types: seq<Type>)
    requires InOrder(items, calls, others)
    ensures InOrder(items + types, calls, others + types)
  {
    forall i | 0 <= i < |calls| ensures Stands(calls[i], items + types) {
      StandsFurther(calls[i], items, items + types);
    }
    if Regular(calls, others + types) {
      assert forall q :: 0 <= q < |others| ==> others[q] == (others + types)[q];
      assert forall q :: 0 <= q < |types| ==> types[q] == (others + types)[|others| + q];
    }
  }

  class TypeMap {
    var items: seq<Type>
    // Every call so far, and the types that came in otherwise: by defining the
    // members of a type, or by the other functions that create types.
    ghost var calls: seq<Call>
    ghost var others: seq<Type>

    ghost predicate Valid()
      reads this
    {
      InOrder(items, calls, others)
    }

    // Over any sequence of calls: two of them returned the same pointer if and
    // only if their arguments have the same normal form and, but for functions,
    // the same `builtin` flag.
    lemma SamePointers(i: nat, j: nat)
      requires Valid() && Regular(calls, others)
      requires i < |calls| && j < |calls| && calls[i].shape == calls[j].shape
      ensures
        var c, d := calls[i], calls[j];
        c.p == d.p <==>
        Normal(c.arg, true) == Normal(d.arg, true) && (!c.shape.FnShape? ==> c.arg.builtin == d.arg.builtin)
    {
      var c, d := calls[i], calls[j];
      assert Stands(c, items) && Stands(d, items);
      SamePointer(c.shape, items, c.arg, c.p, items, d.arg, d.p);
    }

    constructor ()
      ensures Valid() && items == [] && calls == [] && others == []
    {
      items := [];
      calls := [];
      others := [];
    }

    // The search: the first stored type that passes, or the number of types.
    method Search(shape: Shape, t: Type) returns (p: nat)
      ensures p == |items| || First(shape, items, t, p)
      ensures p == |items| ==> forall q :: 0 <= q < p ==> !Found(shape, items[q], t)
    {
      p := 0;
      while p < |items|
        invariant p <= |items| && forall q :: 0 <= q < p ==> !Found(shape, items[q], t)
      {
        if Found(shape, items[p], t) { return; }
        p := p + 1;
      }
    }

    // A call that found what it looked for.
    ghost method Record(c: Call)
      requires Valid() && Stands(c, items)
      modifies this`calls
      ensures Valid() && calls == old(calls) + [c]
    {
      CallKeepsOrder(items, calls, others, c, items);
      calls := calls + [c];
    }

    // A call that did not: the new type goes behind the others.
    method Push(shape: Shape, t: Type)
      requires Valid() && (shape.FnShape? ==> t.body.Fn?)
      requires forall q :: 0 <= q < |items| ==> !Found(shape, items[q], t)
      modifies this`items, this`calls
      ensures Valid() && items == old(items) + [Build(shape, t)]
      ensures calls == old(calls) + [Call(shape, t, |old(items)|)] && First(shape, items, t, |old(items)|)
    {
      ghost var c, more := Call(shape, t, |items|), items + [Build(shape, t)];
      BuiltIsFound(shape, t);
      assert Stands(c, more);
      CallKeepsOrder(items, calls, others, c, more);
      items := items + [Build(shape, t)];
      calls := calls + [c];
    }

    // What other functions add.
    method Add(types: seq<Type>)
      requires Valid()
      modifies this`items, this`others
      ensures Valid() && items == old(items) + types && others == old(others) + types
    {
      AddKeepsOrder(items, calls, others, types);
      items := items + types;
      others := others + types;
    }

    // `createRef`.
    method CreateRef(refType: Type) returns (p: nat)
      requires Valid()
      modifies this`items, this`calls
      ensures Valid() && calls == old(calls) + [Call(RefShape, Actual(refType), p)]
      ensures old(items) <= items && First(RefShape, items, Actual(refType), p)
      ensures forall q :: |old(items)| <= q < |items| ==> items[q] == Type(Ref(Actual(refType)), false)
      ensures items[p].body.Ref? && Match(items[p].body.arg, Actual(refType), true)
      ensures items[p].body.arg.builtin == Actual(refType).builtin
      decreases refType
    {
      if refType.body.Alias? {
        p := CreateRef(refType.body.target);
      } else {
        p := Search(RefShape, refType);
        if p == |items| { Push(RefShape, refType); } else { Record(Call(RefShape, refType, p)); }
        MatchBuilt(RefShape, items[p], refType);
      }
    }

    // `createArr` and `createOpt`; `defined` are the types that defining the
    // new type's members adds.
    method Create(shape: Shape, t: Type, defined: seq<Type>) returns (p: nat)
      requires Valid() && (shape.ArrShape? || shape.OptShape?)
      modifies this
      ensures Valid() && old(calls) + [Call(shape, Actual(t), p)] <= calls
      ensures old(items) <= items && First(shape, items, Actual(t), p)
      ensures shape.ArrShape? ==>
        && items[p].body.Array? && Match(items[p].body.elem, Actual(t), true)
        && items[p].body.elem.builtin == Actual(t).builtin
      ensures shape.OptShape? ==>
        && items[p].body.Opt? && Match(items[p].body.arg, Actual(t), true)
        && items[p].body.arg.builtin == Actual(t).builtin
      decreases t
    {
      if t.body.Alias? {
        p := Create(shape, t.body.target, defined);
      } else {
        p := Search(shape, t);
        if p < |items| {
          Record(Call(shape, t, p));
        } else {
          Push(shape, t);
          var refSelf := CreateRef(items[p]);
          if shape.ArrShape? { var refElement := CreateRef(t); }
          Add(defined);
          assert calls[|old(calls)|] == Call(shape, t, p);
        }
        MatchBuilt(shape, items[p], t);
      }
    }

    // `createFn`, and `createMethod` with `isMethod`.
    method CreateFn(ret: Type, params: seq<Param>, isMethod: bool, isAsync: bool, call: CallInfo, defined: seq<Type>)
      returns (p: nat)
      requires Valid()
      modifies this
      ensures Valid() && old(items) <= items
      ensures old(calls) + [Call(FnShape, Type(Fn(ret, params, isMethod, isAsync, call), false), p)] <= calls
      ensures First(FnShape, items, Type(Fn(ret, params, isMethod, isAsync, call), false), p)
      ensures Match(items[p], Type(Fn(ret, params, isMethod, isAsync, call), false), true) && !items[p].builtin
    {
      var t := Type(Fn(ret, params, isMethod, isAsync, call), false);
      p := Search(FnShape, t);
      if p < |items| {
        Record(Call(FnShape, t, p));
      } else {
        Push(FnShape, t);
        var refSelf := CreateRef(items[p]);
        Add(defined);
        assert calls[|old(calls)|] == Call(FnShape, t, p);
      }
    }
  }
}
