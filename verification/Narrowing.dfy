/** Flow typing: the casts that a condition puts in force in its two branches. */
module Narrowing {
  import opened Prelude
  import opened TypeMatch
  import opened TypeEquivalence

  // What a variable or property holds, behind references.
  datatype Value = Nil | Val(dyn: Type)

  // `Type::real`.
  function Real(t: Type): (r: Type)
    ensures !r.body.Alias? && !r.body.Ref?
    decreases t
  {
    if t.body.Alias? then Real(t.body.target) else if t.body.Ref? then Real(t.body.arg) else t
  }

  predicate IsAny(t: Type) { t.body == Named("any") }

  predicate HasType(v: Value, t: Type)
    decreases t
  {
    if t.body.Alias? then HasType(v, t.body.target)
    else if t.body.Ref? then HasType(v, t.body.arg)
    else if t.body.Opt? then v.Nil? || HasType(v, t.body.arg)
    else if t.body.Union? then exists i | 0 <= i < |t.body.subs| :: HasType(v, t.body.subs[i])
    else IsAny(t) || (v.Val? && Match(v.dyn, t, true))
  }

  // ----- Types that match hold the same values -----

  lemma {:induction false} HasTypeActual(v: Value, t: Type)
    ensures HasType(v, Actual(t)) == HasType(v, t)
    decreases t
  {
    if t.body.Alias? { HasTypeActual(v, t.body.target); }
  }

  lemma {:induction false} HasTypeReal(v: Value, t: Type)
    ensures HasType(v, Real(t)) == HasType(v, t)
    decreases t
  {
    if t.body.Alias? { HasTypeReal(v, t.body.target); } else if t.body.Ref? { HasTypeReal(v, t.body.arg); }
  }

  lemma {:induction false} MatchingTypes(v: Value, s: Type, t: Type)
    requires Match(s, t, true) && Distinct(s) && Distinct(t) && HasType(v, s)
    ensures HasType(v, t)
    decreases Size(s) + Size(t)
  {
    var s', t' := Actual(s), Actual(t);
    HasTypeActual(v, s);
    HasTypeActual(v, t);
    MatchActual(s, t, true);
    MatchActual(t, t, true);
    MatchActual(s', t', true);
    DistinctActual(s);
    DistinctActual(t);
    if s'.body.Ref? || s'.body.Opt? {
      if s'.body.Ref? || v.Val? { MatchingInner(v, s', t'); }
    } else if s'.body.Union? {
      MatchingUnions(v, s'.body.subs, t'.body.subs);
    } else if !IsAny(s') {
      MatchTransitive(v.dyn, s', t', true);
    }
  }

  lemma {:induction false} MatchingInner(v: Value, s: Type, t: Type)
    requires (s.body.Ref? && t.body.Ref?) || (s.body.Opt? && t.body.Opt?)
    requires Same(s.body, t.body, true) && DistinctBody(s.body) && DistinctBody(t.body) && HasType(v, s)
    requires s.body.Ref? || v.Val?
    ensures HasType(v, t)
    decreases Size(s) + Size(t), 0
  {
    assert Size(s) == BodySize(s.body) && Size(t) == BodySize(t.body);
    MatchingTypes(v, s.body.arg, t.body.arg);
  }

  lemma {:induction false} MatchingUnions(v: Value, xs: seq<Type>, ys: seq<Type>)
    requires DistinctBody(Union(xs)) && DistinctBody(Union(ys))
    requires forall i | 0 <= i < |xs| :: HasSubType(ys, xs[i])
    requires exists i | 0 <= i < |xs| :: HasType(v, xs[i])
    ensures exists j | 0 <= j < |ys| :: HasType(v, ys[j])
    decreases Sizes(xs) + Sizes(ys) + 1
  {
    var i :| 0 <= i < |xs| && HasType(v, xs[i]);
    assert HasSubType(ys, xs[i]);
    var j :| 0 <= j < |ys| && Match(ys[j], xs[i], true);
    SizeAt(xs, i);
    SizeAt(ys, j);
    MatchSymmetric(ys[j], xs[i], true);
    MatchingTypes(v, xs[i], ys[j]);
  }

  // ----- Leaving out of a union what matches a type -----

  function Unmatched(subs: seq<Type>, t: Type): seq<Type> {
    if subs == [] then [] else (if Match(subs[0], t, true) then [] else [subs[0]]) + Unmatched(subs[1..], t)
  }

  lemma {:induction false} UnmatchedKeeps(subs: seq<Type>, t: Type)
    ensures forall x :: x in Unmatched(subs, t) <==> x in subs && !Match(x, t, true)
  {
    if subs != [] {
      UnmatchedKeeps(subs[1..], t);
      assert subs == [subs[0]] + subs[1..];
    }
  }

  function ActualAll(subs: seq<Type>): seq<Type> { seq(|subs|, i requires 0 <= i < |subs| => Actual(subs[i])) }

  // `unionSub`.
  function UnionSub(t: Type, except: Type): Type
    requires t.body.Union? && |t.body.subs| > 0
  {
    var subs := Unmatched(t.body.subs, except);
    if subs == [] then t.body.subs[0]
    else if |subs| == 1 then subs[0]
    else Type(Union(ActualAll(subs)), false)
  }

  // A value of the union that is not of the type is of what is left.
  lemma UnionSubHolds(v: Value, t: Type, except: Type)
    requires t.body.Union? && |t.body.subs| > 0 && Distinct(t) && Distinct(except)
    requires HasType(v, t) && !HasType(v, except)
    ensures HasType(v, UnionSub(t, except))
  {
    var all := t.body.subs;
    var i :| 0 <= i < |all| && HasType(v, all[i]);
    if Match(all[i], except, true) { MatchingTypes(v, all[i], except); }
    var subs := Unmatched(all, except);
    UnmatchedKeeps(all, except);
    assert all[i] in subs;
    var k :| 0 <= k < |subs| && subs[k] == all[i];
    if |subs| > 1 {
      HasTypeActual(v, subs[k]);
      assert ActualAll(subs)[k] == Actual(subs[k]);
    }
  }

  predicate Remains(x: Type, t: Type, except: Type)
    requires t.body.Union?
  {
    x in t.body.subs && !Match(x, except, true)
  }

  ghost predicate RemainsAlone(x: Type, t: Type, except: Type)
    requires t.body.Union?
  {
    Remains(x, t, except) && forall y :: Remains(y, t, except) ==> y == x
  }

  lemma {:induction false} UnmatchedDistinct(subs: seq<Type>, t: Type)
    requires DistinctBody(Union(subs))
    ensures DistinctBody(Union(Unmatched(subs, t)))
  {
    if subs != [] {
      var rest := subs[1..];
      assert DistinctBody(Union(rest)) by {
        forall i | 0 <= i < |rest| ensures Distinct(rest[i]) { assert rest[i] == subs[i + 1]; }
        forall i, j | 0 <= i < |rest| && 0 <= j < |rest| && i != j ensures !Match(rest[i], rest[j], true) {
          assert rest[i] == subs[i + 1] && rest[j] == subs[j + 1];
        }
      }
      UnmatchedDistinct(rest, t);
      UnmatchedKeeps(rest, t);
      var r := Unmatched(rest, t);
      var all := [subs[0]] + r;
      forall j | 0 <= j < |r| ensures !Match(subs[0], r[j], true) && !Match(r[j], subs[0], true) {
        assert r[j] in rest;
        var k :| 0 <= k < |rest| && rest[k] == r[j];
        assert subs[k + 1] == r[j];
      }
    }
  }

  lemma UnionSubDistinct(t: Type, except: Type)
    requires t.body.Union? && |t.body.subs| > 0 && Distinct(t)
    ensures Distinct(UnionSub(t, except))
  {
    var subs := Unmatched(t.body.subs, except);
    UnmatchedDistinct(t.body.subs, except);
    var actual := ActualAll(subs);
    forall i | 0 <= i < |subs| ensures Distinct(actual[i]) { DistinctActual(subs[i]); }
    forall i, j | 0 <= i < |subs| && 0 <= j < |subs| && i != j ensures !Match(actual[i], actual[j], true) {
      MatchActual(subs[i], subs[j], true);
      MatchActual(actual[i], actual[j], true);
    }
  }

  // A member that remains alone is the result; where several remain, the result is
  // the union of these, and no member of it matches the type.
  lemma UnionSubExactly(t: Type, except: Type)
    requires t.body.Union? && |t.body.subs| > 0 && Distinct(t)
    ensures
      var r := UnionSub(t, except);
      if forall x :: x in t.body.subs ==> Match(x, except, true) then r == t.body.subs[0]
      else if exists x :: RemainsAlone(x, t, except) then Remains(r, t, except)
      else
        && r.body.Union?
        && (forall x :: Remains(x, t, except) ==> Actual(x) in r.body.subs)
        && forall m :: m in r.body.subs ==>
             !Match(m, except, true) && exists x :: Remains(x, t, except) && Actual(x) == m
  {
    var subs := Unmatched(t.body.subs, except);
    UnmatchedKeeps(t.body.subs, except);
    if |subs| == 1 {
      assert RemainsAlone(subs[0], t, except);
    } else if |subs| > 1 {
      UnmatchedDistinct(t.body.subs, except);
      assert Remains(subs[0], t, except) && Remains(subs[1], t, except);
      if subs[0] == subs[1] { MatchReflexive(subs[0], true); }
      SeveralRemain(t, except);
    }
  }

  lemma SeveralRemain(t: Type, except: Type)
    requires t.body.Union? && |Unmatched(t.body.subs, except)| > 1
    ensures
      var members := UnionSub(t, except).body.subs;
      && (forall x :: Remains(x, t, except) ==> Actual(x) in members)
      && forall m :: m in members ==>
           !Match(m, except, true) && exists x :: Remains(x, t, except) && Actual(x) == m
  {
    var subs, members := Unmatched(t.body.subs, except), UnionSub(t, except).body.subs;
    UnmatchedKeeps(t.body.subs, except);
    forall x | Remains(x, t, except) ensures Actual(x) in members {
      var k :| 0 <= k < |subs| && subs[k] == x;
      assert members[k] == Actual(x);
    }
    forall m | m in members ensures !Match(m, except, true) && exists x :: Remains(x, t, except) && Actual(x) == m {
      var k :| 0 <= k < |members| && members[k] == m;
      assert subs[k] in subs;
      assert Remains(subs[k], t, except) && Actual(subs[k]) == m;
      MatchActual(subs[k], except, true);
      MatchActual(m, except, true);
    }
  }

  // ----- Conditions -----

  // `Other` stands for every condition that casts nothing; `which` tells them
  // apart.
  datatype Cond =
    | And(left: Cond, right: Cond)
    | Or(left: Cond, right: Cond)
    | EqNil(access: string)
    | NeNil(access: string)
    | Is(access: string, typ: Type)
    | Other(which: nat)

  datatype Env = Env(values: map<string, Value>, others: set<nat>)

  type Casts = map<string, Type>

  predicate Scoped(c: Cond, decl: Casts) {
    match c
    case And(l, r) => Scoped(l, decl) && Scoped(r, decl)
    case Or(l, r) => Scoped(l, decl) && Scoped(r, decl)
    case EqNil(x) => x in decl
    case NeNil(x) => x in decl
    case Is(x, t) => x in decl && Distinct(t)
    case Other(_) => true
  }

  predicate True(c: Cond, env: Env) {
    match c
    case And(l, r) => True(l, env) && True(r, env)
    case Or(l, r) => True(l, env) || True(r, env)
    case EqNil(x) => x in env.values && env.values[x].Nil?
    case NeNil(x) => x in env.values && !env.values[x].Nil?
    case Is(x, t) => x in env.values && HasType(env.values[x], t)
    case Other(n) => n in env.others
  }

  predicate WithoutOr(c: Cond) {
    match c
    case And(l, r) => WithoutOr(l) && WithoutOr(r)
    case Or(_, _) => false
    case _ => true
  }

  predicate WithoutAnd(c: Cond) {
    match c
    case And(_, _) => false
    case Or(l, r) => WithoutAnd(l) && WithoutAnd(r)
    case _ => true
  }

  // ----- `_evalTypeCasts` -----

  // The type of an access: its cast in force, else its own.
  function TypeOf(x: string, casts: Casts, decl: Casts): Type
    requires x in decl
  {
    if x in casts then casts[x] else decl[x]
  }

  function Narrow(c: Cond, casts: Casts, decl: Casts): (r: (Casts, Casts))
    requires Scoped(c, decl)
    decreases c
  {
    match c
    case And(l, r) =>
      var left := Narrow(l, casts, decl);
      var right := Narrow(r, casts + left.0, decl);
      (left.0 + right.0, left.1 + right.1)
    case Or(l, r) =>
      var left := Narrow(l, casts, decl);
      var right := Narrow(r, casts, decl);
      (Both(left.0, right.0), Both(left.1, right.1))
    case EqNil(x) =>
      var t := Real(TypeOf(x, casts, decl));
      (map[], if t.body.Opt? then map[x := t.body.arg] else map[])
    case NeNil(x) =>
      var t := Real(TypeOf(x, casts, decl));
      (if t.body.Opt? then map[x := t.body.arg] else map[], map[])
    case Is(x, as_) =>
      var t := Real(TypeOf(x, casts, decl));
      (if IsAny(t) || t.body.Opt? || t.body.Union? then map[x := as_] else map[],
       if t.body.Union? && |t.body.subs| > 0 then map[x := UnionSub(t, as_)] else map[])
    case Other(_) => (map[], map[])
  }

  // The right cast of every access that both sides cast.
  function Both(left: Casts, right: Casts): Casts { map x | x in right && x in left :: right[x] }

  // ----- Soundness -----

  predicate Hold(casts: Casts, env: Env) {
    forall x :: x in casts ==> x in env.values && HasType(env.values[x], casts[x]) && Distinct(casts[x])
  }

  lemma {:induction false} DistinctReal(t: Type)
    requires Distinct(t)
    ensures Distinct(Real(t))
    decreases t
  {
    if t.body.Alias? { DistinctReal(t.body.target); } else if t.body.Ref? { DistinctReal(t.body.arg); }
  }

  lemma TypeOfHolds(x: string, casts: Casts, decl: Casts, env: Env)
    requires x in decl && Hold(casts, env) && Hold(decl, env)
    ensures
      var t := Real(TypeOf(x, casts, decl));
      x in env.values && HasType(env.values[x], t) && Distinct(t)
  {
    HasTypeReal(env.values[x], TypeOf(x, casts, decl));
    DistinctReal(TypeOf(x, casts, decl));
  }

  // All casts are to types without repeated members.
  predicate Sound(casts: Casts) { forall x :: x in casts ==> Distinct(casts[x]) }

  lemma {:induction false} NarrowSound(c: Cond, casts: Casts, decl: Casts)
    requires Scoped(c, decl) && Sound(casts) && Sound(decl)
    ensures Sound(Narrow(c, casts, decl).0) && Sound(Narrow(c, casts, decl).1)
    decreases c
  {
    match c
    case And(l, r) =>
      NarrowSound(l, casts, decl);
      NarrowSound(r, casts + Narrow(l, casts, decl).0, decl);
    case Or(l, r) =>
      NarrowSound(l, casts, decl);
      NarrowSound(r, casts, decl);
    case EqNil(x) => DistinctReal(TypeOf(x, casts, decl));
    case NeNil(x) => DistinctReal(TypeOf(x, casts, decl));
    case Is(x, as_) =>
      DistinctReal(TypeOf(x, casts, decl));
      var t := Real(TypeOf(x, casts, decl));
      if t.body.Union? && |t.body.subs| > 0 { UnionSubDistinct(t, as_); }
    case Other(_) =>
  }

  // The two sides of an `||` cast no access to types that differ.
  predicate BodySafe(c: Cond, casts: Casts, decl: Casts)
    requires Scoped(c, decl)
  {
    match c
    case And(l, r) => BodySafe(l, casts, decl) && BodySafe(r, casts + Narrow(l, casts, decl).0, decl)
    case Or(l, r) =>
      var left, right := Narrow(l, casts, decl).0, Narrow(r, casts, decl).0;
      && BodySafe(l, casts, decl) && BodySafe(r, casts, decl)
      && forall x :: x in left && x in right ==> Match(left[x], right[x], true)
    case _ => true
  }

  // An `&&` casts nothing where it is false.
  predicate AltSafe(c: Cond, casts: Casts, decl: Casts)
    requires Scoped(c, decl)
  {
    match c
    case And(l, r) => Narrow(c, casts, decl).1 == map[]
    case Or(l, r) => AltSafe(l, casts, decl) && AltSafe(r, casts, decl)
    case _ => true
  }

  lemma {:induction false} WithoutOrIsSafe(c: Cond, casts: Casts, decl: Casts)
    requires Scoped(c, decl)
    ensures WithoutOr(c) ==> BodySafe(c, casts, decl)
    ensures WithoutAnd(c) ==> AltSafe(c, casts, decl)
    decreases c
  {
    match c
    case And(l, r) =>
      WithoutOrIsSafe(l, casts, decl);
      WithoutOrIsSafe(r, casts + Narrow(l, casts, decl).0, decl);
    case Or(l, r) =>
      WithoutOrIsSafe(l, casts, decl);
      WithoutOrIsSafe(r, casts, decl);
    case _ =>
  }

  // Where a condition is true, its body casts hold: always without `||`, and
  // as long as the sides of each `||` agree.
  lemma {:induction false} BodyCastsHold(c: Cond, casts: Casts, decl: Casts, env: Env)
    requires Scoped(c, decl) && Hold(casts, env) && Hold(decl, env) && True(c, env)
    requires WithoutOr(c) || BodySafe(c, casts, decl)
    ensures Hold(Narrow(c, casts, decl).0, env)
    decreases c
  {
    WithoutOrIsSafe(c, casts, decl);
    match c
    case And(l, r) =>
      BodyCastsHold(l, casts, decl, env);
      BodyCastsHold(r, casts + Narrow(l, casts, decl).0, decl, env);
    case Or(l, r) => OrBodyHolds(l, r, casts, decl, env);
    case EqNil(x) =>
    case NeNil(x) => TypeOfHolds(x, casts, decl, env);
    case Is(x, _) => TypeOfHolds(x, casts, decl, env);
    case Other(_) =>
  }

  lemma {:induction false} OrBodyHolds(l: Cond, r: Cond, casts: Casts, decl: Casts, env: Env)
    requires Scoped(Or(l, r), decl) && Hold(casts, env) && Hold(decl, env) && True(Or(l, r), env)
    requires BodySafe(Or(l, r), casts, decl)
    ensures Hold(Narrow(Or(l, r), casts, decl).0, env)
    decreases Or(l, r), 0
  {
    var left, right := Narrow(l, casts, decl).0, Narrow(r, casts, decl).0;
    NarrowSound(l, casts, decl);
    NarrowSound(r, casts, decl);
    if True(r, env) {
      BodyCastsHold(r, casts, decl, env);
    } else {
      BodyCastsHold(l, casts, decl, env);
      forall x | x in right && x in left ensures HasType(env.values[x], right[x]) {
        MatchingTypes(env.values[x], left[x], right[x]);
      }
    }
  }

  // Where a condition is false, its alternative casts hold: always without
  // `&&`, and as long as each `&&` has none.
  lemma {:induction false} AltCastsHold(c: Cond, casts: Casts, decl: Casts, env: Env)
    requires Scoped(c, decl) && Hold(casts, env) && Hold(decl, env) && !True(c, env)
    requires WithoutAnd(c) || AltSafe(c, casts, decl)
    ensures Hold(Narrow(c, casts, decl).1, env)
    decreases c
  {
    WithoutOrIsSafe(c, casts, decl);
    match c
    case And(l, r) =>
    case Or(l, r) =>
      AltCastsHold(l, casts, decl, env);
      AltCastsHold(r, casts, decl, env);
    case EqNil(x) => TypeOfHolds(x, casts, decl, env);
    case NeNil(x) => TypeOfHolds(x, casts, decl, env);
    case Is(x, as_) =>
      TypeOfHolds(x, casts, decl, env);
      var t := Real(TypeOf(x, casts, decl));
      if t.body.Union? && |t.body.subs| > 0 {
        UnionSubHolds(env.values[x], t, as_);
        UnionSubDistinct(t, as_);
      }
    case Other(_) =>
  }

  // With `||` they may not: where `x is A || x is B` is true, `x` is said to
  // be of type B.
  lemma OrCastsTooMuch(a: string, b: string)
    requires a != b && a != "any" && b != "any"
    ensures
      var A, B := Type(Named(a), false), Type(Named(b), false);
      var decl: Casts := map["x" := Type(Union([A, B]), false)];
      var env := Env(map["x" := Val(A)], {});
      var c := Or(Is("x", A), Is("x", B));
      Scoped(c, decl) && Hold(decl, env) && True(c, env) && !Hold(Narrow(c, map[], decl).0, env)
  {
    var A, B := Type(Named(a), false), Type(Named(b), false);
    var subs := [A, B];
    var decl: Casts := map["x" := Type(Union(subs), false)];
    var env := Env(map["x" := Val(A)], {});
    var c := Or(Is("x", A), Is("x", B));
    TwoNames(a, b);
    assert HasType(Val(A), subs[0]) && !HasType(Val(A), B);
    assert HasType(env.values["x"], decl["x"]) && Distinct(decl["x"]);
    assert Scoped(c.left, decl) && Scoped(c.right, decl);
    assert True(c.left, env);
    assert Real(TypeOf("x", map[], decl)) == decl["x"];
    assert Narrow(c.left, map[], decl).0 == map["x" := A] && Narrow(c.right, map[], decl).0 == map["x" := B];
    var body := Narrow(c, map[], decl).0;
    assert "x" in body && body["x"] == B;
  }

  // And where `x is A && y` is false, `x` is said not to be of type A.
  lemma AndCastsTooMuch(a: string, b: string, y: nat)
    requires a != b && a != "any" && b != "any"
    ensures
      var A, B := Type(Named(a), false), Type(Named(b), false);
      var decl: Casts := map["x" := Type(Union([A, B]), false)];
      var env := Env(map["x" := Val(A)], {});
      var c := And(Is("x", A), Other(y));
      Scoped(c, decl) && Hold(decl, env) && !True(c, env) && !Hold(Narrow(c, map[], decl).1, env)
  {
    var A, B := Type(Named(a), false), Type(Named(b), false);
    var subs := [A, B];
    var decl: Casts := map["x" := Type(Union(subs), false)];
    var env := Env(map["x" := Val(A)], {});
    var c := And(Is("x", A), Other(y));
    TwoNames(a, b);
    assert HasType(Val(A), subs[0]) && !HasType(Val(A), B);
    assert HasType(env.values["x"], decl["x"]) && Distinct(decl["x"]);
    assert Scoped(c.left, decl) && Scoped(c.right, decl);
    assert subs[1..][1..] == [];
    assert Unmatched(subs[1..], A) == [B] + Unmatched(subs[1..][1..], A);
    assert Unmatched(subs, A) == [B];
    assert Real(TypeOf("x", map[], decl)) == decl["x"];
    assert Narrow(c.left, map[], decl).1 == map["x" := B];
    var none: Casts := map[];
    assert Narrow(c.left, none, decl).0 == map["x" := A] && none + map["x" := A] == map["x" := A];
    assert Narrow(c.right, map["x" := A], decl).1 == none;
    assert Narrow(c, none, decl).1 == map["x" := B] + none;
    var alt := Narrow(c, map[], decl).1;
    assert "x" in alt && alt["x"] == B;
  }

  lemma TwoNames(a: string, b: string)
    requires a != b
    ensures
      var A, B := Type(Named(a), false), Type(Named(b), false);
      && Match(A, A, true) && !Match(A, B, true) && !Match(B, A, true)
      && Distinct(A) && Distinct(B) && Distinct(Type(Union([A, B]), false))
  {
    var A, B := Type(Named(a), false), Type(Named(b), false);
    var subs := [A, B];
    MatchActual(A, A, true);
    MatchActual(A, B, true);
    MatchActual(B, A, true);
    assert Distinct(subs[0]) && Distinct(subs[1]);
    assert DistinctBody(Union(subs));
  }

  // The analysis as it runs, with the casts in force as a field.
  class Analyser {
    const decl: Casts
    var typeCasts: Casts

    constructor (decl: Casts)
      ensures this.decl == decl && typeCasts == map[]
    {
      this.decl := decl;
      typeCasts := map[];
    }

    // `_evalTypeCasts`: the casts in force are put back.
    method EvalTypeCasts(c: Cond) returns (bodyTypeCasts: Casts, altTypeCasts: Casts)
      requires Scoped(c, decl)
      modifies this
      ensures typeCasts == old(typeCasts)
      ensures (bodyTypeCasts, altTypeCasts) == Narrow(c, old(typeCasts), decl)
      decreases c
    {
      var initialTypeCasts := typeCasts;
      bodyTypeCasts, altTypeCasts := map[], map[];
      match c {
        case And(l, r) =>
          var leftBody, leftAlt := EvalTypeCasts(l);
          typeCasts := typeCasts + leftBody;
          var rightBody, rightAlt := EvalTypeCasts(r);
          bodyTypeCasts, altTypeCasts := leftBody + rightBody, leftAlt + rightAlt;
        case Or(l, r) =>
          var leftBody, leftAlt := EvalTypeCasts(l);
          var rightBody, rightAlt := EvalTypeCasts(r);
          bodyTypeCasts := map x | x in rightBody && x in leftBody :: rightBody[x];
          altTypeCasts := map x | x in rightAlt && x in leftAlt :: rightAlt[x];
        case EqNil(x) =>
          var t := Real(TypeOf(x, typeCasts, decl));
          if t.body.Opt? { altTypeCasts := map[x := t.body.arg]; }
        case NeNil(x) =>
          var t := Real(TypeOf(x, typeCasts, decl));
          if t.body.Opt? { bodyTypeCasts := map[x := t.body.arg]; }
        case Is(x, isType) =>
          var t := Real(TypeOf(x, typeCasts, decl));
          if IsAny(t) || t.body.Opt? || t.body.Union? {
            bodyTypeCasts := map[x := isType];
            if t.body.Union? && |t.body.subs| > 0 {
              var left := LeaveOut(t, isType);
              altTypeCasts := map[x := left];
            }
          }
        case Other(_) =>
      }
      typeCasts := initialTypeCasts;
    }

    static lemma UnmatchedNext(subs: seq<Type>, i: nat, t: Type, done: seq<Type>)
      requires i < |subs|
      ensures
        done + Unmatched(subs[i..], t) ==
        (if Match(subs[i], t, true) then done else done + [subs[i]]) + Unmatched(subs[i + 1..], t)
    {
      assert subs[i..][1..] == subs[i + 1..] && subs[i..][0] == subs[i];
    }

    // `unionSub`, up to looking up the new union.
    method LeaveOut(t: Type, except: Type) returns (r: Type)
      requires t.body.Union? && |t.body.subs| > 0
      ensures r == UnionSub(t, except)
    {
      var subTypes, newSubTypes := t.body.subs, [];
      var i := 0;
      while i < |subTypes|
        invariant i <= |subTypes| && Unmatched(subTypes, except) == newSubTypes + Unmatched(subTypes[i..], except)
      {
        UnmatchedNext(subTypes, i, except, newSubTypes);
        if !Match(subTypes[i], except, true) { newSubTypes := newSubTypes + [subTypes[i]]; }
        i := i + 1;
      }
      assert newSubTypes + Unmatched(subTypes[i..], except) == newSubTypes;
      if newSubTypes == [] {
        r := subTypes[0];
      } else if |newSubTypes| == 1 {
        r := newSubTypes[0];
      } else {
        r := Type(Union(ActualAll(newSubTypes)), false);
      }
    }
  }
}
