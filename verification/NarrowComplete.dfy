/** No cast is missing: which accesses a condition casts, and to what, said access
    by access and test by test. */
module NarrowComplete {
  import opened Prelude
  import opened TypeMatch
  import opened TypeEquivalence
  import opened Narrowing
  import opened NarrowExact

  // ----- One test -----

  // The type that a true test gives `x`, whose type was `t`.
  function WhenTrue(a: Cond, x: string, t: Type): Option<Type> {
    var r := Real(t);
    match a
    case NeNil(y) => if y == x && r.body.Opt? then Some(r.body.arg) else None
    case Is(y, u) => if y == x && (IsAny(r) || r.body.Opt? || r.body.Union?) then Some(u) else None
    case _ => None
  }

  // The type that a false test gives it.
  function WhenFalse(a: Cond, x: string, t: Type): Option<Type> {
    var r := Real(t);
    match a
    case EqNil(y) => if y == x && r.body.Opt? then Some(r.body.arg) else None
    case Is(y, u) => if y == x && r.body.Union? && |r.body.subs| > 0 then Some(UnionSub(r, u)) else None
    case _ => None
  }

  // Both are as narrow as the test allows: but for nil in an optional of an
  // optional, a value has the new type if and only if it had the old one and the
  // test came out that way.
  lemma TrueTells(a: Cond, x: string, t: Type, v: Value)
    requires WhenTrue(a, x, t).Some?
    ensures a.NeNil? && v.Val? ==> (HasType(v, WhenTrue(a, x, t).value) <==> HasType(v, t) && Satisfies(a, v))
    ensures a.Is? ==> (HasType(v, WhenTrue(a, x, t).value) <==> Satisfies(a, v))
  {
    HasTypeReal(v, t);
  }

  lemma FalseTells(a: Cond, x: string, t: Type, v: Value)
    requires WhenFalse(a, x, t).Some? && a.EqNil? && v.Val?
    ensures HasType(v, WhenFalse(a, x, t).value) <==> HasType(v, t) && !Satisfies(a, v)
  {
    HasTypeReal(v, t);
  }

  // ----- Whole conditions, one access at a time -----

  function Else(o: Option<Type>, t: Type): Type { if o.Some? then o.value else t }

  // The type that a condition with that outcome gives `x`: the right operand of
  // `&&` sees what the left one has told; its word is the last; of `||` both
  // operands have to tell something.
  function Told(c: Cond, truth: bool, x: string, t: Type): Option<Type> {
    match c
    case And(l, r) =>
      var right := Told(r, truth, x, Else(Told(l, true, x, t), t));
      if right.Some? then right else Told(l, truth, x, t)
    case Or(l, r) => if Told(l, truth, x, t).None? then None else Told(r, truth, x, t)
    case _ => if truth then WhenTrue(c, x, t) else WhenFalse(c, x, t)
  }

  function Entry(casts: Casts, x: string): Option<Type> { if x in casts then Some(casts[x]) else None }

  // The two maps hold what the condition tells, for every access, and no more.
  lemma {:induction false} CastsAreTold(c: Cond, casts: Casts, decl: Casts, x: string)
    requires Scoped(c, decl) && x in decl
    ensures
      var t := TypeOf(x, casts, decl);
      && Entry(Narrow(c, casts, decl).0, x) == Told(c, true, x, t)
      && Entry(Narrow(c, casts, decl).1, x) == Told(c, false, x, t)
    decreases c
  {
    match c
    case And(l, r) =>
      CastsAreTold(l, casts, decl, x);
      CastsAreTold(r, casts + Narrow(l, casts, decl).0, decl, x);
    case Or(l, r) =>
      CastsAreTold(l, casts, decl, x);
      CastsAreTold(r, casts, decl, x);
    case _ =>
  }

  // ----- Chains of tests -----

  // The type of `x` in front of the test at `n`.
  function Seen(links: seq<Cond>, n: nat, x: string, t: Type): Type
    requires n <= |links|
  {
    if n == 0 then t
    else
      var before := Seen(links, n - 1, x, t);
      Else(WhenTrue(links[n - 1], x, before), before)
  }

  // The test at `i` casts `x`.
  predicate CastsAt(links: seq<Cond>, i: nat, x: string, t: Type)
    requires i < |links|
  {
    WhenTrue(links[i], x, Seen(links, i, x, t)).Some?
  }

  lemma {:induction false} SeenInFront(l: seq<Cond>, r: seq<Cond>, n: nat, x: string, t: Type)
    requires n <= |l|
    ensures Seen(l + r, n, x, t) == Seen(l, n, x, t)
  {
    if n > 0 {
      SeenInFront(l, r, n - 1, x, t);
      assert (l + r)[n - 1] == l[n - 1];
    }
  }

  lemma {:induction false} SeenBehind(l: seq<Cond>, r: seq<Cond>, n: nat, x: string, t: Type)
    requires n <= |r|
    ensures Seen(l + r, |l| + n, x, t) == Seen(r, n, x, Seen(l, |l|, x, t))
  {
    if n == 0 {
      SeenInFront(l, r, |l|, x, t);
    } else {
      SeenBehind(l, r, n - 1, x, t);
      assert (l + r)[|l| + n - 1] == r[n - 1];
    }
  }

  predicate CastsAny(links: seq<Cond>, x: string, t: Type) { exists i: nat :: i < |links| && CastsAt(links, i, x, t) }

  lemma {:induction false} CastsEither(l: seq<Cond>, r: seq<Cond>, x: string, t: Type)
    ensures CastsAny(l + r, x, t) <==> CastsAny(l, x, t) || CastsAny(r, x, Seen(l, |l|, x, t))
  {
    var t1 := Seen(l, |l|, x, t);
    if CastsAny(l + r, x, t) {
      var i: nat :| i < |l + r| && CastsAt(l + r, i, x, t);
      if i < |l| {
        SeenInFront(l, r, i, x, t);
        assert CastsAt(l, i, x, t);
      } else {
        SeenBehind(l, r, i - |l|, x, t);
        assert CastsAt(r, i - |l|, x, t1);
      }
    }
    if i: nat :| i < |l| && CastsAt(l, i, x, t) {
      SeenInFront(l, r, i, x, t);
      assert CastsAt(l + r, i, x, t);
    }
    if i: nat :| i < |r| && CastsAt(r, i, x, t1) {
      SeenBehind(l, r, i, x, t);
      assert CastsAt(l + r, |l| + i, x, t);
    }
  }

  lemma {:induction false} ChainTold(c: Cond, x: string, t: Type)
    requires OnlyAnd(c)
    ensures Told(c, true, x, t).Some? <==> CastsAny(Links(c), x, t)
    ensures Else(Told(c, true, x, t), t) == Seen(Links(c), |Links(c)|, x, t)
    decreases c
  {
    if c.And? {
      var l, r := Links(c.left), Links(c.right);
      ChainTold(c.left, x, t);
      ChainTold(c.right, x, Seen(l, |l|, x, t));
      SeenBehind(l, r, |r|, x, t);
      CastsEither(l, r, x, t);
    } else {
      OneTold(c, x, t);
    }
  }

  lemma OneTold(a: Cond, x: string, t: Type)
    ensures CastsAny([a], x, t) <==> WhenTrue(a, x, t).Some?
    ensures Seen([a], 1, x, t) == Else(WhenTrue(a, x, t), t)
  {
    assert Seen([a], 0, x, t) == t;
    assert CastsAt([a], 0, x, t) == WhenTrue(a, x, t).Some?;
  }

  // A condition without `||` casts an access where it is true if and only if one
  // of its tests does, to the type that the last of these gives it.
  lemma ConjunctsAreTold(c: Cond, casts: Casts, decl: Casts, x: string)
    requires OnlyAnd(c) && Scoped(c, decl) && x in decl
    ensures
      var body, links, t := Narrow(c, casts, decl).0, Links(c), TypeOf(x, casts, decl);
      && (x in body <==> CastsAny(links, x, t))
      && (x in body ==> body[x] == Seen(links, |links|, x, t))
  {
    CastsAreTold(c, casts, decl, x);
    ChainTold(c, x, TypeOf(x, casts, decl));
  }

  // An access of optional type that is compared with nil by `!=` is cast, and nil
  // is not of its type any more, unless it is tested for another type later.
  lemma NilIsExcluded(c: Cond, casts: Casts, decl: Casts, x: string, i: nat)
    requires OnlyAnd(c) && Scoped(c, decl) && x in decl && i < |Links(c)| && Links(c)[i] == NeNil(x)
    requires
      var t := Real(Seen(Links(c), i, x, TypeOf(x, casts, decl)));
      t.body.Opt? && !HasType(Nil, t.body.arg)
    requires forall k :: i < k < |Links(c)| ==> !(Links(c)[k].Is? && Links(c)[k].access == x)
    ensures
      var body := Narrow(c, casts, decl).0;
      x in body && !HasType(Nil, body[x])
  {
    var links, t := Links(c), TypeOf(x, casts, decl);
    ConjunctsAreTold(c, casts, decl, x);
    assert CastsAt(links, i, x, t);
    SeenStays(links, i + 1, |links|, x, t);
  }

  lemma {:induction false} SeenStays(links: seq<Cond>, i: nat, n: nat, x: string, t: Type)
    requires i <= n <= |links| && !HasType(Nil, Seen(links, i, x, t))
    requires forall k :: i <= k < n ==> !(links[k].Is? && links[k].access == x)
    ensures Seen(links, n, x, t) == Seen(links, i, x, t)
  {
    if i < n {
      SeenStays(links, i, n - 1, x, t);
      HasTypeReal(Nil, Seen(links, i, x, t));
    }
  }

  // An access of type any, of optional or of union type that is tested by `is` is
  // cast to the type of the last such test, if it is not compared later.
  lemma LastTestDecides(c: Cond, casts: Casts, decl: Casts, x: string, i: nat, u: Type)
    requires OnlyAnd(c) && Scoped(c, decl) && x in decl && i < |Links(c)| && Links(c)[i] == Is(x, u)
    requires
      var t := Real(Seen(Links(c), i, x, TypeOf(x, casts, decl)));
      IsAny(t) || t.body.Opt? || t.body.Union?
    requires forall k :: i < k < |Links(c)| ==> !Concerns(Links(c)[k], x)
    ensures
      var body := Narrow(c, casts, decl).0;
      x in body && body[x] == u
  {
    var links, t := Links(c), TypeOf(x, casts, decl);
    ConjunctsAreTold(c, casts, decl, x);
    assert CastsAt(links, i, x, t);
    SeenUnconcerned(links, i + 1, |links|, x, t);
  }

  lemma {:induction false} SeenUnconcerned(links: seq<Cond>, i: nat, n: nat, x: string, t: Type)
    requires i <= n <= |links| && forall k :: i <= k < n ==> !Concerns(links[k], x)
    ensures Seen(links, n, x, t) == Seen(links, i, x, t)
  {
    if i < n { SeenUnconcerned(links, i, n - 1, x, t); }
  }

  // Where it is false, it casts what one of its tests casts where that is false:
  // what the test at `i` tells then.
  function ElseAt(links: seq<Cond>, i: nat, x: string, t: Type): Option<Type>
    requires i < |links|
  {
    WhenFalse(links[i], x, Seen(links, i, x, t))
  }

  predicate NoneFrom(links: seq<Cond>, n: nat, x: string, t: Type) {
    forall k: nat :: n <= k < |links| ==> ElseAt(links, k, x, t).None?
  }

  // `told` is what the last test that tells something tells, if one does.
  ghost predicate LastElse(links: seq<Cond>, x: string, t: Type, told: Option<Type>) {
    if told.None? then NoneFrom(links, 0, x, t)
    else exists i: nat :: i < |links| && ElseAt(links, i, x, t) == told && NoneFrom(links, i + 1, x, t)
  }

  lemma {:induction false} ElseTold(c: Cond, x: string, t: Type)
    requires OnlyAnd(c)
    ensures LastElse(Links(c), x, t, Told(c, false, x, t))
    decreases c
  {
    if c.And? {
      var l, r := Links(c.left), Links(c.right);
      var t1 := Seen(l, |l|, x, t);
      ChainTold(c.left, x, t);
      ElseTold(c.left, x, t);
      ElseTold(c.right, x, t1);
      if Told(c.right, false, x, t1).Some? {
        ElseBehind(l, r, x, t, Told(c.right, false, x, t1));
      } else {
        ElseInFront(l, r, x, t, Told(c.left, false, x, t));
      }
    } else {
      assert Links(c) == [c] && Seen([c], 0, x, t) == t;
      assert ElseAt([c], 0, x, t) == WhenFalse(c, x, t);
    }
  }

  lemma ElseAtFront(l: seq<Cond>, r: seq<Cond>, k: nat, x: string, t: Type)
    requires k < |l|
    ensures ElseAt(l + r, k, x, t) == ElseAt(l, k, x, t)
  {
    SeenInFront(l, r, k, x, t);
  }

  lemma ElseAtBack(l: seq<Cond>, r: seq<Cond>, k: nat, x: string, t: Type)
    requires k < |r|
    ensures ElseAt(l + r, |l| + k, x, t) == ElseAt(r, k, x, Seen(l, |l|, x, t))
  {
    SeenBehind(l, r, k, x, t);
  }

  lemma ElseBehind(l: seq<Cond>, r: seq<Cond>, x: string, t: Type, told: Option<Type>)
    requires told.Some? && LastElse(r, x, Seen(l, |l|, x, t), told)
    ensures LastElse(l + r, x, t, told)
  {
    var t1 := Seen(l, |l|, x, t);
    var i: nat :| i < |r| && ElseAt(r, i, x, t1) == told && NoneFrom(r, i + 1, x, t1);
    ElseAtBack(l, r, i, x, t);
    NoneBehind(l, r, i + 1, x, t);
  }

  lemma NoneBehind(l: seq<Cond>, r: seq<Cond>, n: nat, x: string, t: Type)
    requires NoneFrom(r, n, x, Seen(l, |l|, x, t))
    ensures NoneFrom(l + r, |l| + n, x, t)
  {
    forall k: nat | |l| + n <= k < |l + r| ensures ElseAt(l + r, k, x, t).None? {
      ElseAtBack(l, r, k - |l|, x, t);
    }
  }

  lemma NoneInFront(l: seq<Cond>, r: seq<Cond>, n: nat, x: string, t: Type)
    requires NoneFrom(l, n, x, t) && NoneFrom(l + r, |l|, x, t)
    ensures NoneFrom(l + r, n, x, t)
  {
    forall k: nat | n <= k < |l + r| ensures ElseAt(l + r, k, x, t).None? {
      if k < |l| { ElseAtFront(l, r, k, x, t); }
    }
  }

  lemma ElseInFront(l: seq<Cond>, r: seq<Cond>, x: string, t: Type, told: Option<Type>)
    requires LastElse(l, x, t, told) && NoneFrom(r, 0, x, Seen(l, |l|, x, t))
    ensures LastElse(l + r, x, t, told)
  {
    NoneBehind(l, r, 0, x, t);
    if told.None? {
      NoneInFront(l, r, 0, x, t);
    } else {
      var i: nat :| i < |l| && ElseAt(l, i, x, t) == told && NoneFrom(l, i + 1, x, t);
      ElseAtFront(l, r, i, x, t);
      NoneInFront(l, r, i + 1, x, t);
    }
  }

  lemma ConjunctsAreToldElse(c: Cond, casts: Casts, decl: Casts, x: string)
    requires OnlyAnd(c) && Scoped(c, decl) && x in decl
    ensures
      var alt, links, t := Narrow(c, casts, decl).1, Links(c), TypeOf(x, casts, decl);
      LastElse(links, x, t, Entry(alt, x))
  {
    CastsAreTold(c, casts, decl, x);
    ElseTold(c, x, TypeOf(x, casts, decl));
  }

  lemma LastElseIs(links: seq<Cond>, x: string, t: Type, i: nat, told: Option<Type>)
    requires i < |links| && ElseAt(links, i, x, t).Some? && LastElse(links, x, t, told)
    requires forall k :: i < k < |links| ==> !Concerns(links[k], x)
    ensures told == ElseAt(links, i, x, t)
  {
    forall k: nat | i < k < |links| ensures ElseAt(links, k, x, t).None? {
    }
    if told.Some? {
      var j: nat :| j < |links| && ElseAt(links, j, x, t) == told && NoneFrom(links, j + 1, x, t);
      assert i == j;
    }
  }

  // An access of optional type that is compared with nil by `==` is cast where the
  // condition is false, and nil is not of its type any more, unless it is tested
  // later.
  lemma NilIsExcludedElse(c: Cond, casts: Casts, decl: Casts, x: string, i: nat)
    requires OnlyAnd(c) && Scoped(c, decl) && x in decl && i < |Links(c)| && Links(c)[i] == EqNil(x)
    requires
      var t := Real(Seen(Links(c), i, x, TypeOf(x, casts, decl)));
      t.body.Opt? && !HasType(Nil, t.body.arg)
    requires forall k :: i < k < |Links(c)| ==> !Concerns(Links(c)[k], x)
    ensures
      var alt := Narrow(c, casts, decl).1;
      x in alt && !HasType(Nil, alt[x])
  {
    ConjunctsAreToldElse(c, casts, decl, x);
    LastElseIs(Links(c), x, TypeOf(x, casts, decl), i, Entry(Narrow(c, casts, decl).1, x));
  }

  // An access of union type that is tested by `is` is cast there to what remains
  // of the union.
  lemma RemainderElse(c: Cond, casts: Casts, decl: Casts, x: string, i: nat, u: Type)
    requires OnlyAnd(c) && Scoped(c, decl) && x in decl && i < |Links(c)| && Links(c)[i] == Is(x, u)
    requires
      var t := Real(Seen(Links(c), i, x, TypeOf(x, casts, decl)));
      t.body.Union? && |t.body.subs| > 0
    requires forall k :: i < k < |Links(c)| ==> !Concerns(Links(c)[k], x)
    ensures
      var alt := Narrow(c, casts, decl).1;
      x in alt && alt[x] == UnionSub(Real(Seen(Links(c), i, x, TypeOf(x, casts, decl))), u)
  {
    ConjunctsAreToldElse(c, casts, decl, x);
    LastElseIs(Links(c), x, TypeOf(x, casts, decl), i, Entry(Narrow(c, casts, decl).1, x));
  }

  // A condition without `&&` casts an access if and only if all of its tests do,
  // to the type that the last one gives it; both where it is true and where it
  // is false.
  lemma {:induction false} DisjunctsTold(c: Cond, truth: bool, x: string, t: Type)
    requires OnlyOr(c)
    ensures
      var links := Links(c);
      && (Told(c, truth, x, t).Some? <==> forall a :: a in links ==> Told(a, truth, x, t).Some?)
      && (Told(c, truth, x, t).Some? ==> Told(c, truth, x, t) == Told(links[|links| - 1], truth, x, t))
    decreases c
  {
    if c.Or? {
      DisjunctsTold(c.left, truth, x, t);
      DisjunctsTold(c.right, truth, x, t);
    }
  }

  lemma DisjunctsAreTold(c: Cond, casts: Casts, decl: Casts, x: string)
    requires OnlyOr(c) && Scoped(c, decl) && x in decl
    ensures
      var narrowed, links, t := Narrow(c, casts, decl), Links(c), TypeOf(x, casts, decl);
      var last := links[|links| - 1];
      && (x in narrowed.0 <==> forall a :: a in links ==> CastsTrue(a, x, Real(t)))
      && (x in narrowed.0 ==> WhenTrue(last, x, t) == Some(narrowed.0[x]))
      && (x in narrowed.1 <==> forall a :: a in links ==> CastsFalse(a, x, Real(t)))
      && (x in narrowed.1 ==> WhenFalse(last, x, t) == Some(narrowed.1[x]))
  {
    var t := TypeOf(x, casts, decl);
    CastsAreTold(c, casts, decl, x);
    DisjunctsTold(c, true, x, t);
    DisjunctsTold(c, false, x, t);
    forall a | a in Links(c)
      ensures Told(a, true, x, t).Some? == CastsTrue(a, x, Real(t))
      ensures Told(a, false, x, t).Some? == CastsFalse(a, x, Real(t))
    {
      TestCasts(a, x, t);
    }
    LastTold(c, x, t);
  }

  lemma LastTold(c: Cond, x: string, t: Type)
    requires OnlyOr(c)
    ensures
      var last := Links(c)[|Links(c)| - 1];
      Told(last, true, x, t) == WhenTrue(last, x, t) && Told(last, false, x, t) == WhenFalse(last, x, t)
  {
    var last := Links(c)[|Links(c)| - 1];
    assert last in Links(c);
  }

  // The tests that cast `x`, whose type is `r`: where they are true, `x != nil` of
  // an optional, and `x is ..` of any, an optional or a union; where they are
  // false, `x == nil` of an optional, and `x is ..` of a union.
  predicate CastsTrue(a: Cond, x: string, r: Type) {
    || (a == NeNil(x) && r.body.Opt?)
    || (a.Is? && a.access == x && (IsAny(r) || r.body.Opt? || r.body.Union?))
  }

  predicate CastsFalse(a: Cond, x: string, r: Type) {
    || (a == EqNil(x) && r.body.Opt?)
    || (a.Is? && a.access == x && r.body.Union? && |r.body.subs| > 0)
  }

  lemma TestCasts(a: Cond, x: string, t: Type)
    ensures WhenTrue(a, x, t).Some? == CastsTrue(a, x, Real(t))
    ensures WhenFalse(a, x, t).Some? == CastsFalse(a, x, Real(t))
  {
  }
}
