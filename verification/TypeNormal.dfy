/** What `matchStrict` tells apart: types are matched if and only if they have the
    same normal form. */
module TypeNormal {
  import opened Prelude
  import opened TypeMatch
  import opened TypeEquivalence

  // A type without its aliases and with the members of unions in no order.
  // `exact` keeps the names of functions and of parameters; members of unions
  // always keep them.
  datatype Norm =
    | NamedNorm(name: string)
    | ArrayNorm(elem: Norm)
    | FnNorm(ret: Norm, params: seq<ParamNorm>, isMethod: bool, isAsync: bool, codeName: Option<string>,
             self: Option<SelfNorm>)
    | MapNorm(key: Norm, value: Norm)
    | OptNorm(arg: Norm)
    | RefNorm(arg: Norm)
    | UnionNorm(subs: set<Norm>)

  datatype ParamNorm =
    ParamNorm(name: Option<Option<string>>, typ: Norm, isMut: bool, required: bool, variadic: bool)

  datatype SelfNorm = SelfNorm(codeName: string, typ: Norm, isMut: bool)

  function Normal(t: Type, exact: bool): Norm
    decreases t, 0
  {
    NormalBody(t.body, exact)
  }

  function NormalBody(b: Body, exact: bool): Norm
    decreases b, 0
  {
    match b
    case Named(x) => NamedNorm(x)
    case Alias(_, x) => Normal(x, exact)
    case Array(x) => ArrayNorm(Normal(x, exact))
    case Fn(ret, ps, isMethod, isAsync, call) =>
      FnNorm(Normal(ret, exact), NormalParams(ps, exact), isMethod, isAsync,
             if exact then Some(call.codeName) else None,
             if call.self.None? then None
             else Some(SelfNorm(call.self.value.codeName, Normal(call.self.value.typ, exact), call.self.value.isMut)))
    case MapOf(k, v) => MapNorm(Normal(k, exact), Normal(v, exact))
    case Opt(x) => OptNorm(Normal(x, exact))
    case Ref(x) => RefNorm(Normal(x, exact))
    case Union(ts) => UnionNorm(NormalSubs(ts))
  }

  function NormalParam(p: Param, exact: bool): ParamNorm
    decreases p, 1
  {
    ParamNorm(if exact then Some(p.name) else None, Normal(p.typ, exact), p.isMut, p.required, p.variadic)
  }

  function NormalParams(ps: seq<Param>, exact: bool): (r: seq<ParamNorm>)
    ensures |r| == |ps|
    decreases ps, 2
  {
    seq(|ps|, i requires 0 <= i < |ps| => NormalParam(ps[i], exact))
  }

  // The normal forms of a union's members.
  function NormalSubs(ts: seq<Type>): set<Norm>
    decreases ts, 2
  {
    set i | 0 <= i < |ts| :: Normal(ts[i], true)
  }

  lemma {:induction false} NormalActual(t: Type, exact: bool)
    ensures Normal(t, exact) == NormalBody(Actual(t).body, exact)
    decreases t
  {
    if t.body.Alias? { NormalActual(t.body.target, exact); }
  }

  // ----- Matching is having the same normal form -----

  lemma {:induction false} MatchIsNormal(a: Type, b: Type, exact: bool)
    requires Distinct(a) && Distinct(b)
    ensures Match(a, b, exact) <==> Normal(a, exact) == Normal(b, exact)
    decreases Size(a) + Size(b), 2
  {
    MatchActual(a, b, exact);
    MatchActual(b, b, exact);
    DistinctActual(a);
    DistinctActual(b);
    NormalActual(a, exact);
    NormalActual(b, exact);
    SameIsNormal(Actual(a).body, Actual(b).body, exact);
  }

  lemma {:induction false} SameIsNormal(a: Body, b: Body, exact: bool)
    requires !a.Alias? && !b.Alias? && DistinctBody(a) && DistinctBody(b)
    ensures Same(a, b, exact) <==> NormalBody(a, exact) == NormalBody(b, exact)
    decreases BodySize(a) + BodySize(b), 1
  {
    match a
    case Named(_) =>
    case Array(x) => if b.Array? { MatchIsNormal(x, b.elem, exact); }
    case Fn(_, _, _, _, _) => if b.Fn? { FnIsNormal(a, b, exact); }
    case MapOf(k, v) =>
      if b.MapOf? {
        MatchIsNormal(k, b.key, exact);
        MatchIsNormal(v, b.value, exact);
      }
    case Opt(x) => if b.Opt? { MatchIsNormal(x, b.arg, exact); }
    case Ref(x) => if b.Ref? { MatchIsNormal(x, b.arg, exact); }
    case Union(xs) => if b.Union? { UnionIsNormal(xs, b.subs); }
  }

  lemma {:induction false} FnIsNormal(a: Body, b: Body, exact: bool)
    requires a.Fn? && b.Fn? && DistinctBody(a) && DistinctBody(b)
    ensures SameFn(a, b, exact) <==> NormalBody(a, exact) == NormalBody(b, exact)
    decreases BodySize(a) + BodySize(b), 0
  {
    MatchIsNormal(a.ret, b.ret, exact);
    if a.call.self.Some? && b.call.self.Some? {
      MatchIsNormal(a.call.self.value.typ, b.call.self.value.typ, exact);
    }
    if |a.params| == |b.params| {
      forall i | 0 <= i < |a.params|
        ensures ParamsMatch(a.params[i], b.params[i], exact) <==>
                NormalParam(a.params[i], exact) == NormalParam(b.params[i], exact)
      {
        ParamSizeAt(a.params, i);
        ParamSizeAt(b.params, i);
        assert DistinctParam(a.params[i]) && DistinctParam(b.params[i]);
        MatchIsNormal(a.params[i].typ, b.params[i].typ, exact);
      }
      ParamsAreNormal(a.params, b.params, exact);
    }
    SameFnByParts(a, b, exact);
  }

  predicate ParamsMatch(x: Param, y: Param, exact: bool) { SameParam(x, y, exact) && Match(x.typ, y.typ, exact) }

  lemma ParamsAreNormal(ps: seq<Param>, qs: seq<Param>, exact: bool)
    requires |ps| == |qs|
    requires forall i | 0 <= i < |ps| ::
               ParamsMatch(ps[i], qs[i], exact) <==> NormalParam(ps[i], exact) == NormalParam(qs[i], exact)
    ensures
      (forall i | 0 <= i < |ps| :: ParamsMatch(ps[i], qs[i], exact)) <==>
      NormalParams(ps, exact) == NormalParams(qs, exact)
  {
    var m, n := NormalParams(ps, exact), NormalParams(qs, exact);
    assert forall i | 0 <= i < |ps| :: m[i] == NormalParam(ps[i], exact) && n[i] == NormalParam(qs[i], exact);
    if m == n {
      forall i | 0 <= i < |ps| ensures ParamsMatch(ps[i], qs[i], exact) {
        assert m[i] == n[i];
      }
    }
  }

  // The tests of two function types one by one.
  predicate SelfMatch(x: Option<SelfInfo>, y: Option<SelfInfo>, exact: bool) {
    && x.Some? == y.Some?
    && (x.Some? ==>
          && x.value.codeName == y.value.codeName && x.value.isMut == y.value.isMut
          && Match(x.value.typ, y.value.typ, exact))
  }

  lemma SameFnByParts(a: Body, b: Body, exact: bool)
    requires a.Fn? && b.Fn?
    ensures
      SameFn(a, b, exact) <==>
      && Match(a.ret, b.ret, exact) && a.isAsync == b.isAsync && a.isMethod == b.isMethod
      && (exact ==> a.call.codeName == b.call.codeName) && SelfMatch(a.call.self, b.call.self, exact)
      && |a.params| == |b.params| && forall i | 0 <= i < |a.params| :: ParamsMatch(a.params[i], b.params[i], exact)
  {
  }

  // What `matchStrict` asks of two unions.
  predicate Included(xs: seq<Type>, ys: seq<Type>) { forall i | 0 <= i < |xs| :: HasSubType(ys, xs[i]) }

  predicate MembersDistinct(ts: seq<Type>) { forall i | 0 <= i < |ts| :: Distinct(ts[i]) }

  lemma {:induction false} UnionIsNormal(xs: seq<Type>, ys: seq<Type>)
    requires DistinctBody(Union(xs)) && DistinctBody(Union(ys))
    ensures |xs| == |ys| && Included(xs, ys) <==> NormalSubs(xs) == NormalSubs(ys)
    decreases Sizes(xs) + Sizes(ys), 8
  {
    AllNormal(xs);
    AllNormal(ys);
    if NormalSubs(xs) == NormalSubs(ys) {
      SubsAreFound(xs, ys);
    } else if |xs| == |ys| && Included(xs, ys) {
      SubsAreNormal(xs, ys);
      SubsetOfSize(NormalSubs(xs), NormalSubs(ys));
    }
  }

  lemma SubsetOfSize<T>(a: set<T>, b: set<T>)
    requires a <= b && |a| == |b|
    ensures a == b
  {
    assert b == a + (b - a);
    assert |b| == |a| + |b - a|;
  }

  lemma {:induction false} AllNormal(ts: seq<Type>)
    requires DistinctBody(Union(ts))
    ensures |NormalSubs(ts)| == |ts|
    decreases Sizes(ts), 6, |ts| + 1
  {
    NormalSubsSize(ts, |ts|);
    assert FirstSubs(ts, |ts|) == NormalSubs(ts);
  }

  lemma {:induction false} SubsAreNormal(xs: seq<Type>, ys: seq<Type>)
    requires MembersDistinct(xs) && MembersDistinct(ys) && Included(xs, ys)
    ensures NormalSubs(xs) <= NormalSubs(ys)
    decreases Sizes(xs) + Sizes(ys), 6
  {
    forall n | n in NormalSubs(xs) ensures n in NormalSubs(ys) {
      var i :| 0 <= i < |xs| && Normal(xs[i], true) == n;
      assert HasSubType(ys, xs[i]);
      var j :| 0 <= j < |ys| && Match(ys[j], xs[i], true);
      SizeAt(xs, i);
      SizeAt(ys, j);
      MatchIsNormal(ys[j], xs[i], true);
    }
  }

  lemma {:induction false} SubsAreFound(xs: seq<Type>, ys: seq<Type>)
    requires MembersDistinct(xs) && MembersDistinct(ys) && NormalSubs(xs) == NormalSubs(ys)
    ensures Included(xs, ys)
    decreases Sizes(xs) + Sizes(ys), 6
  {
    forall i | 0 <= i < |xs| ensures HasSubType(ys, xs[i]) {
      assert Normal(xs[i], true) in NormalSubs(xs);
      var j :| 0 <= j < |ys| && Normal(ys[j], true) == Normal(xs[i], true);
      SizeAt(xs, i);
      SizeAt(ys, j);
      MatchIsNormal(ys[j], xs[i], true);
    }
  }

  lemma {:induction false} TwoSizes(ts: seq<Type>, i: nat, j: nat)
    requires i < j < |ts|
    ensures Size(ts[i]) + Size(ts[j]) <= Sizes(ts)
  {
    if i == 0 {
      SizeAt(ts[1..], j - 1);
    } else {
      TwoSizes(ts[1..], i - 1, j - 1);
    }
  }

  function FirstSubs(ts: seq<Type>, n: nat): set<Norm>
    requires n <= |ts|
  {
    set i | 0 <= i < n :: Normal(ts[i], true)
  }

  // Members that do not match have different normal forms.
  lemma {:induction false} NormalSubsSize(ts: seq<Type>, n: nat)
    requires DistinctBody(Union(ts)) && n <= |ts|
    ensures |FirstSubs(ts, n)| == n
    decreases Sizes(ts), 6, n
  {
    if n > 0 {
      var k := n - 1;
      NormalSubsSize(ts, k);
      var last := Normal(ts[k], true);
      assert last !in FirstSubs(ts, k) by {
        if last in FirstSubs(ts, k) {
          var i :| 0 <= i < k && Normal(ts[i], true) == last;
          TwoSizes(ts, i, k);
          MatchIsNormal(ts[i], ts[k], true);
        }
      }
      assert FirstSubs(ts, n) == FirstSubs(ts, k) + {last};
    }
  }
}
