/** `matchStrict` is an equivalence relation on types whose unions have no two
    matching members. */
module TypeEquivalence {
  import opened Prelude
  import opened TypeMatch

  // No union in `t` has two members that match.
  predicate Distinct(t: Type)
    decreases t, 0
  {
    DistinctBody(t.body)
  }

  predicate DistinctBody(b: Body)
    decreases b, 0
  {
    match b
    case Named(_) => true
    case Alias(_, x) => Distinct(x)
    case Array(x) => Distinct(x)
    case Fn(ret, ps, _, _, call) =>
      && Distinct(ret) && (forall i | 0 <= i < |ps| :: DistinctParam(ps[i]))
      && (call.self.Some? ==> Distinct(call.self.value.typ))
    case MapOf(k, v) => Distinct(k) && Distinct(v)
    case Opt(x) => Distinct(x)
    case Ref(x) => Distinct(x)
    case Union(ts) =>
      && (forall i | 0 <= i < |ts| :: Distinct(ts[i]))
      && (forall i, j | 0 <= i < |ts| && 0 <= j < |ts| && i != j :: !Match(ts[i], ts[j], true))
  }

  predicate DistinctParam(p: Param)
    decreases p, 1
  {
    Distinct(p.typ)
  }

  // Aliases are looked through on both sides.
  lemma {:induction false} MatchActual(a: Type, b: Type, exact: bool)
    ensures Match(a, b, exact) == Same(Actual(a).body, Actual(b).body, exact)
    ensures Size(Actual(a)) == BodySize(Actual(a).body) <= Size(a)
    decreases a
  {
    if a.body.Alias? { MatchActual(a.body.target, b, exact); }
  }

  lemma {:induction false} DistinctActual(t: Type)
    requires Distinct(t)
    ensures DistinctBody(Actual(t).body)
    decreases t
  {
    if t.body.Alias? { DistinctActual(t.body.target); }
  }

  // ----- Reflexivity -----

  lemma {:induction false} MatchReflexive(a: Type, exact: bool)
    ensures Match(a, a, exact)
    decreases Size(a), 1
  {
    MatchActual(a, a, exact);
    SameReflexive(Actual(a).body, exact);
  }

  lemma {:induction false} SameReflexive(b: Body, exact: bool)
    requires !b.Alias?
    ensures Same(b, b, exact)
    decreases BodySize(b), 0
  {
    match b
    case Named(_) =>
    case Array(x) => MatchReflexive(x, exact);
    case Fn(ret, ps, _, _, call) =>
      MatchReflexive(ret, exact);
      if call.self.Some? { MatchReflexive(call.self.value.typ, exact); }
      forall i | 0 <= i < |ps| ensures Match(ps[i].typ, ps[i].typ, exact) {
        ParamSizeAt(ps, i);
        MatchReflexive(ps[i].typ, exact);
      }
    case MapOf(k, v) => MatchReflexive(k, exact); MatchReflexive(v, exact);
    case Opt(x) => MatchReflexive(x, exact);
    case Ref(x) => MatchReflexive(x, exact);
    case Union(ts) =>
      forall i | 0 <= i < |ts| ensures HasSubType(ts, ts[i]) {
        SizeAt(ts, i);
        MatchReflexive(ts[i], true);
      }
  }

  // ----- Transitivity -----

  lemma {:induction false} MatchTransitive(a: Type, b: Type, c: Type, exact: bool)
    requires Match(a, b, exact) && Match(b, c, exact)
    ensures Match(a, c, exact)
    decreases Size(a) + Size(b) + Size(c), 2
  {
    MatchActual(a, b, exact);
    MatchActual(b, c, exact);
    MatchActual(a, c, exact);
    MatchActual(c, c, exact);
    SameTransitive(Actual(a).body, Actual(b).body, Actual(c).body, exact);
  }

  lemma {:induction false} SameTransitive(a: Body, b: Body, c: Body, exact: bool)
    requires !a.Alias? && !b.Alias? && !c.Alias? && Same(a, b, exact) && Same(b, c, exact)
    ensures Same(a, c, exact)
    decreases BodySize(a) + BodySize(b) + BodySize(c), 1
  {
    match a
    case Named(_) =>
    case Array(x) => MatchTransitive(x, b.elem, c.elem, exact);
    case Fn(_, _, _, _, _) => FnTransitive(a, b, c, exact);
    case MapOf(k, v) =>
      MatchTransitive(k, b.key, c.key, exact);
      MatchTransitive(v, b.value, c.value, exact);
    case Opt(x) => MatchTransitive(x, b.arg, c.arg, exact);
    case Ref(x) => MatchTransitive(x, b.arg, c.arg, exact);
    case Union(xs) => UnionTransitive(xs, b.subs, c.subs);
  }

  lemma {:induction false} FnTransitive(a: Body, b: Body, c: Body, exact: bool)
    requires a.Fn? && b.Fn? && c.Fn? && SameFn(a, b, exact) && SameFn(b, c, exact)
    ensures SameFn(a, c, exact)
    decreases BodySize(a) + BodySize(b) + BodySize(c), 0
  {
    MatchTransitive(a.ret, b.ret, c.ret, exact);
    if a.call.self.Some? {
      MatchTransitive(a.call.self.value.typ, b.call.self.value.typ, c.call.self.value.typ, exact);
    }
    forall i | 0 <= i < |a.params| ensures Match(a.params[i].typ, c.params[i].typ, exact) {
      ParamSizeAt(a.params, i);
      ParamSizeAt(b.params, i);
      ParamSizeAt(c.params, i);
      MatchTransitive(a.params[i].typ, b.params[i].typ, c.params[i].typ, exact);
    }
  }

  lemma {:induction false} UnionTransitive(xs: seq<Type>, ys: seq<Type>, zs: seq<Type>)
    requires forall i | 0 <= i < |xs| :: HasSubType(ys, xs[i])
    requires forall i | 0 <= i < |ys| :: HasSubType(zs, ys[i])
    ensures forall i | 0 <= i < |xs| :: HasSubType(zs, xs[i])
    decreases Sizes(xs) + Sizes(ys) + Sizes(zs), 3
  {
    forall i | 0 <= i < |xs| ensures HasSubType(zs, xs[i]) {
      var j :| 0 <= j < |ys| && Match(ys[j], xs[i], true);
      var k :| 0 <= k < |zs| && Match(zs[k], ys[j], true);
      SizeAt(xs, i);
      SizeAt(ys, j);
      SizeAt(zs, k);
      MatchTransitive(zs[k], ys[j], xs[i], true);
    }
  }

  // ----- Symmetry -----

  lemma {:induction false} MatchSymmetric(a: Type, b: Type, exact: bool)
    requires Match(a, b, exact) && Distinct(a) && Distinct(b)
    ensures Match(b, a, exact)
    decreases Size(a) + Size(b), 2
  {
    MatchActual(a, b, exact);
    MatchActual(b, a, exact);
    DistinctActual(a);
    DistinctActual(b);
    SameSymmetric(Actual(a).body, Actual(b).body, exact);
  }

  lemma {:induction false} SameSymmetric(a: Body, b: Body, exact: bool)
    requires !a.Alias? && !b.Alias? && Same(a, b, exact) && DistinctBody(a) && DistinctBody(b)
    ensures Same(b, a, exact)
    decreases BodySize(a) + BodySize(b), 1
  {
    match a
    case Named(_) =>
    case Array(x) => MatchSymmetric(x, b.elem, exact);
    case Fn(_, _, _, _, _) => FnSymmetric(a, b, exact);
    case MapOf(k, v) =>
      MatchSymmetric(k, b.key, exact);
      MatchSymmetric(v, b.value, exact);
    case Opt(x) => MatchSymmetric(x, b.arg, exact);
    case Ref(x) => MatchSymmetric(x, b.arg, exact);
    case Union(xs) => UnionSymmetric(xs, b.subs);
  }

  lemma {:induction false} FnSymmetric(a: Body, b: Body, exact: bool)
    requires a.Fn? && b.Fn? && SameFn(a, b, exact) && DistinctBody(a) && DistinctBody(b)
    ensures SameFn(b, a, exact)
    decreases BodySize(a) + BodySize(b), 0
  {
    MatchSymmetric(a.ret, b.ret, exact);
    if a.call.self.Some? { MatchSymmetric(a.call.self.value.typ, b.call.self.value.typ, exact); }
    forall i | 0 <= i < |a.params| ensures Match(b.params[i].typ, a.params[i].typ, exact) {
      ParamSizeAt(a.params, i);
      ParamSizeAt(b.params, i);
      assert DistinctParam(a.params[i]) && DistinctParam(b.params[i]);
      MatchSymmetric(a.params[i].typ, b.params[i].typ, exact);
    }
  }

  // The code asks for equal numbers of members and one inclusion.  Which of
  // `ys` a member of `xs` matches is injective, hence onto: it is enough that
  // no two of `xs` match.
  lemma {:induction false} UnionSymmetric(xs: seq<Type>, ys: seq<Type>)
    requires |xs| == |ys| && DistinctBody(Union(xs)) && forall j | 0 <= j < |ys| :: Distinct(ys[j])
    requires forall i | 0 <= i < |xs| :: HasSubType(ys, xs[i])
    ensures forall j | 0 <= j < |ys| :: HasSubType(xs, ys[j])
    decreases Sizes(xs) + Sizes(ys), 5
  {
    var f := Partners(xs, ys, |xs|);
    forall i, i' | 0 <= i < i' < |f| ensures f[i] != f[i'] {
      if f[i] == f[i'] { PartnersDiffer(xs, ys, i, i', f[i]); }
    }
    Onto(f, |ys|);
    forall j | 0 <= j < |ys| ensures HasSubType(xs, ys[j]) {
      assert j in f;
      var i :| 0 <= i < |f| && f[i] == j;
      SizeAt(xs, i);
      SizeAt(ys, j);
      assert Match(ys[j], xs[i], true);
      MatchSymmetric(ys[j], xs[i], true);
    }
  }

  lemma {:induction false} Partners(xs: seq<Type>, ys: seq<Type>, n: nat) returns (f: seq<nat>)
    requires n <= |xs| && forall i | 0 <= i < |xs| :: HasSubType(ys, xs[i])
    ensures |f| == n && forall i :: 0 <= i < n ==> f[i] < |ys| && Match(ys[f[i]], xs[i], true)
    decreases n, 0
  {
    if n == 0 {
      f := [];
    } else {
      f := Partners(xs, ys, n - 1);
      var j :| 0 <= j < |ys| && Match(ys[j], xs[n - 1], true);
      f := f + [j];
    }
  }

  lemma {:induction false} PartnersDiffer(xs: seq<Type>, ys: seq<Type>, i: nat, i': nat, j: nat)
    requires DistinctBody(Union(xs)) && i < |xs| && i' < |xs| && i != i' && j < |ys| && Distinct(ys[j])
    requires Match(ys[j], xs[i], true)
    ensures !Match(ys[j], xs[i'], true)
    decreases Sizes(xs) + Sizes(ys), 4
  {
    if Match(ys[j], xs[i'], true) {
      SizeAt(xs, i);
      SizeAt(ys, j);
      MatchSymmetric(ys[j], xs[i], true);
      MatchTransitive(xs[i], ys[j], xs[i'], true);
    }
  }

  function Below(n: nat): (s: set<nat>)
    ensures |s| == n && forall k: nat :: k in s <==> k < n
  {
    if n == 0 then {} else Below(n - 1) + {n - 1}
  }

  function Values(f: seq<nat>): (s: set<nat>)
    requires forall i, j :: 0 <= i < j < |f| ==> f[i] != f[j]
    ensures |s| == |f| && forall k :: k in s <==> k in f
  {
    if f == [] then {}
    else
      var front, last := f[..|f| - 1], f[|f| - 1];
      assert f == front + [last];
      assert last !in front;
      Values(front) + {last}
  }

  // `n` different numbers below `n` are all of them.
  lemma Onto(f: seq<nat>, n: nat)
    requires |f| == n && (forall i :: 0 <= i < n ==> f[i] < n) && forall i, j :: 0 <= i < j < n ==> f[i] != f[j]
    ensures forall k: nat :: k < n ==> k in f
  {
    var s, all := Values(f), Below(n);
    assert s <= all;
    assert all == s + (all - s);
    assert |all| == |s| + |all - s|;
    assert all - s == {};
  }

  // A union whose members are each without repeated members.
  predicate PlainMembers(t: Type) {
    var u := Actual(t).body;
    u.Union? && forall i | 0 <= i < |u.subs| :: Distinct(u.subs[i])
  }

  // A name that is longer than that of any type in the list.
  function LongName(ts: seq<Type>): (s: string)
    ensures forall i :: 0 <= i < |ts| && Actual(ts[i]).body.Named? ==> |Actual(ts[i]).body.name| < |s|
  {
    if ts == [] then "x"
    else
      var s := LongName(ts[1..]);
      assert forall i :: 0 < i < |ts| ==> ts[i] == ts[1..][i - 1];
      var t := Actual(ts[0]).body;
      if t.Named? then s + t.name + "x" else s
  }

  lemma NewNameMatchesNone(ts: seq<Type>, i: nat)
    requires i < |ts|
    ensures !Match(ts[i], Type(Named(LongName(ts)), false), true)
  {
    MatchActual(ts[i], Type(Named(LongName(ts)), false), true);
  }

  lemma OthersStillMatch(xs: seq<Type>, i: nat, j: nat, x: Type, k: nat)
    requires i < |xs| && j < |xs| && k < |xs| && i != j && Match(xs[i], xs[j], true)
    ensures HasSubType(xs[j := x], xs[k])
  {
    var ys := xs[j := x];
    if k == j {
      assert Match(ys[i], xs[k], true);
    } else {
      MatchReflexive(xs[k], true);
      assert Match(ys[k], xs[k], true);
    }
  }

  lemma NewMemberMatchesNone(xs: seq<Type>)
    ensures !HasSubType(xs, Type(Named(LongName(xs)), false))
  {
    forall k | 0 <= k < |xs| ensures !Match(xs[k], Type(Named(LongName(xs)), false), true) {
      NewNameMatchesNone(xs, k);
    }
  }

  // Replacing one of two members that match by a new type gives a union that
  // is matched and does not match.
  lemma RepeatedMemberIsLost(a: Type, i: nat, j: nat)
    requires Actual(a).body.Union?
    requires var xs := Actual(a).body.subs; i < |xs| && j < |xs| && i != j && Match(xs[i], xs[j], true)
    ensures
      var xs := Actual(a).body.subs;
      var b := Type(Union(xs[j := Type(Named(LongName(xs)), false)]), false);
      Match(a, b, true) && !Match(b, a, true)
  {
    var xs := Actual(a).body.subs;
    var x := Type(Named(LongName(xs)), false);
    var ys := xs[j := x];
    var b := Type(Union(ys), false);
    MatchActual(a, b, true);
    MatchActual(b, a, true);
    forall k | 0 <= k < |xs| ensures HasSubType(ys, xs[k]) { OthersStillMatch(xs, i, j, x, k); }
    NewMemberMatchesNone(xs);
    UnionsMatch(xs, ys);
    UnionsMatch(ys, xs);
    assert ys[j] == x;
  }

  lemma UnionsMatch(xs: seq<Type>, ys: seq<Type>)
    ensures Same(Union(xs), Union(ys), true) <==> |xs| == |ys| && forall k | 0 <= k < |xs| :: HasSubType(ys, xs[k])
  {
  }

  // A union matches no union that does not match it back, if and only if no
  // two of its members match.
  lemma SymmetricExactly(a: Type)
    requires PlainMembers(a)
    ensures
      (forall b :: PlainMembers(b) && Match(a, b, true) ==> Match(b, a, true)) <==>
      (var xs := Actual(a).body.subs;
       forall i, j | 0 <= i < |xs| && 0 <= j < |xs| && i != j :: !Match(xs[i], xs[j], true))
  {
    var xs := Actual(a).body.subs;
    if i, j :| 0 <= i < |xs| && 0 <= j < |xs| && i != j && Match(xs[i], xs[j], true) {
      RepeatedMemberIsLost(a, i, j);
      var b := Type(Union(xs[j := Type(Named(LongName(xs)), false)]), false);
      assert PlainMembers(b) && Match(a, b, true) && !Match(b, a, true);
    } else {
      forall b | PlainMembers(b) && Match(a, b, true) ensures Match(b, a, true) {
        MatchActual(a, b, true);
        MatchActual(b, a, true);
        UnionSymmetric(xs, Actual(b).body.subs);
      }
    }
  }

  // With a repeated member it is not symmetric: `int | int` matches
  // `int | str`, but not the other way round.
  lemma RepeatedMembersMatch()
    ensures
      var i, s := Type(Named("int"), true), Type(Named("str"), true);
      var a, b := Type(Union([i, i]), false), Type(Union([i, s]), false);
      Match(a, b, true) && !Match(b, a, true) && Distinct(b) && !Distinct(a)
  {
    var i, s := Type(Named("int"), true), Type(Named("str"), true);
    var xs, ys := [i, i], [i, s];
    var a, b := Type(Union(xs), false), Type(Union(ys), false);
    assert Match(i, i, true) && !Match(i, s, true) && !Match(s, i, true);
    assert Match(ys[0], i, true);
    assert HasSubType(ys, xs[0]) && HasSubType(ys, xs[1]);
    assert Same(a.body, b.body, true);
    assert !HasSubType(xs, ys[1]);
    assert !Same(b.body, a.body, true);
    assert Match(xs[0], xs[1], true);
  }
}
