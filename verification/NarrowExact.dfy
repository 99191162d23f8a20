/** When the casts of a condition are sound: an exact test for chains of `||` or
    of `&&`, and one for every condition. */
module NarrowExact {
  import opened Prelude
  import opened TypeMatch
  import opened TypeEquivalence
  import opened Narrowing

  // ----- Finitely many values stand for all -----

  // The types a value can have that are not aliases, references, optionals or
  // unions.
  function Leaves(t: Type): seq<Type>
    decreases t, 0
  {
    match t.body
    case Alias(_, x) => Leaves(x)
    case Ref(x) => Leaves(x)
    case Opt(x) => Leaves(x)
    case Union(ts) => LeavesOf(ts)
    case _ => [t]
  }

  function LeavesOf(ts: seq<Type>): seq<Type>
    decreases ts, 0
  {
    if ts == [] then [] else Leaves(ts[0]) + LeavesOf(ts[1..])
  }

  predicate Fits(v: Value, q: Type) { IsAny(q) || (v.Val? && Match(v.dyn, q, true)) }

  lemma {:induction false} LeavesTell(d: Type, t: Type)
    ensures HasType(Val(d), t) <==> exists q :: q in Leaves(t) && Fits(Val(d), q)
    decreases t, 0
  {
    match t.body
    case Alias(_, x) => LeavesTell(d, x);
    case Ref(x) => LeavesTell(d, x);
    case Opt(x) => LeavesTell(d, x);
    case Union(ts) =>
      AllLeavesTell(d, ts);
      assert HasType(Val(d), t) <==> exists i | 0 <= i < |ts| :: HasType(Val(d), ts[i]);
    case _ =>
      assert Leaves(t) == [t] && t in Leaves(t) && HasType(Val(d), t) == Fits(Val(d), t);
      if q :| q in Leaves(t) && Fits(Val(d), q) { assert q == t; }
  }

  lemma {:induction false} AllLeavesTell(d: Type, ts: seq<Type>)
    ensures (exists i | 0 <= i < |ts| :: HasType(Val(d), ts[i])) <==> exists q :: q in LeavesOf(ts) && Fits(Val(d), q)
    decreases ts, 0
  {
    if ts != [] {
      LeavesTell(d, ts[0]);
      AllLeavesTell(d, ts[1..]);
      assert forall i :: 0 < i < |ts| ==> ts[i] == ts[1..][i - 1];
      if i :| 0 <= i < |ts[1..]| && HasType(Val(d), ts[1..][i]) { assert HasType(Val(d), ts[i + 1]); }
    }
  }

  lemma {:induction false} LeavesAreDistinct(t: Type)
    requires Distinct(t)
    ensures forall q :: q in Leaves(t) ==> Distinct(q)
    decreases t, 0
  {
    match t.body
    case Alias(_, x) => LeavesAreDistinct(x);
    case Ref(x) => LeavesAreDistinct(x);
    case Opt(x) => LeavesAreDistinct(x);
    case Union(ts) => AllLeavesAreDistinct(ts);
    case _ =>
  }

  lemma {:induction false} AllLeavesAreDistinct(ts: seq<Type>)
    requires forall i | 0 <= i < |ts| :: Distinct(ts[i])
    ensures forall q :: q in LeavesOf(ts) ==> Distinct(q)
    decreases ts, 0
  {
    if ts != [] {
      LeavesAreDistinct(ts[0]);
      AllLeavesAreDistinct(ts[1..]);
    }
  }

  lemma {:induction false} LeavesAmong(ts: seq<Type>, i: nat)
    requires i < |ts|
    ensures forall q :: q in Leaves(ts[i]) ==> q in LeavesOf(ts)
  {
    if i > 0 { LeavesAmong(ts[1..], i - 1); }
  }

  // A type that is not mentioned.
  function Unmentioned(ts: seq<Type>): Type {
    Type(Named(LongName([Type(Named("any"), false)] + LeavesOf(ts))), false)
  }

  // No type, every leaf, and a type that is not mentioned.
  function Candidates(ts: seq<Type>): seq<Value> {
    var leaves := LeavesOf(ts);
    [Nil, Val(Unmentioned(ts))] + seq(|leaves|, i requires 0 <= i < |leaves| => Val(leaves[i]))
  }

  // Values of a type without repeated members.
  predicate Plain(v: Value) { v.Val? ==> Distinct(v.dyn) }

  predicate SameTypes(v: Value, w: Value, ts: seq<Type>) {
    v.Nil? == w.Nil? && forall t :: t in ts ==> HasType(v, t) == HasType(w, t)
  }

  lemma UnmentionedFits(ts: seq<Type>, q: Type)
    requires q in LeavesOf(ts)
    ensures Fits(Val(Unmentioned(ts)), q) <==> IsAny(q)
  {
    var all := [Type(Named("any"), false)] + LeavesOf(ts);
    var i :| 0 <= i < |LeavesOf(ts)| && LeavesOf(ts)[i] == q;
    assert all[i + 1] == q;
    MatchActual(Unmentioned(ts), q, true);
  }

  lemma MatchingFits(d: Type, q: Type, p: Type)
    requires Match(d, q, true) && Distinct(d) && Distinct(q)
    ensures Fits(Val(d), p) <==> Fits(Val(q), p)
  {
    MatchSymmetric(d, q, true);
    if Match(d, p, true) { MatchTransitive(q, d, p, true); }
    if Match(q, p, true) { MatchTransitive(d, q, p, true); }
  }

  lemma CandidatesStandForAll(v: Value, ts: seq<Type>) returns (w: Value)
    requires Plain(v) && forall i | 0 <= i < |ts| :: Distinct(ts[i])
    ensures w in Candidates(ts) && Plain(w) && SameTypes(v, w, ts)
  {
    AllLeavesAreDistinct(ts);
    var leaves := LeavesOf(ts);
    if v.Nil? {
      w := Nil;
    } else if i :| 0 <= i < |leaves| && Match(v.dyn, leaves[i], true) {
      w := Val(leaves[i]);
      assert Candidates(ts)[i + 2] == w && leaves[i] in leaves;
      forall t | t in ts ensures HasType(v, t) == HasType(w, t) {
        LeavesTell(v.dyn, t);
        LeavesTell(leaves[i], t);
        forall p | p in Leaves(t) ensures Fits(v, p) <==> Fits(w, p) { MatchingFits(v.dyn, leaves[i], p); }
      }
    } else {
      w := Val(Unmentioned(ts));
      assert Candidates(ts)[1] == w;
      forall t | t in ts ensures HasType(v, t) == HasType(w, t) {
        LeavesTell(v.dyn, t);
        LeavesTell(Unmentioned(ts), t);
        var k :| 0 <= k < |ts| && ts[k] == t;
        LeavesAmong(ts, k);
        forall p | p in Leaves(t) ensures Fits(v, p) <==> Fits(w, p) { UnmentionedFits(ts, p); }
      }
    }
  }

  lemma CandidatesArePlain(ts: seq<Type>, w: Value)
    requires w in Candidates(ts) && forall i | 0 <= i < |ts| :: Distinct(ts[i])
    ensures Plain(w)
  {
    AllLeavesAreDistinct(ts);
  }

  // ----- Conditions on one access -----

  predicate IsAtom(c: Cond) { !c.And? && !c.Or? }

  predicate Concerns(a: Cond, k: string) { (a.EqNil? || a.NeNil? || a.Is?) && a.access == k }

  predicate Satisfies(a: Cond, v: Value)
    requires a.EqNil? || a.NeNil? || a.Is?
  {
    match a
    case EqNil(_) => v.Nil?
    case NeNil(_) => !v.Nil?
    case Is(_, t) => HasType(v, t)
  }

  // What the declaration and the cast in force let an access hold.
  predicate Allowed(k: string, v: Value, casts: Casts, decl: Casts)
    requires k in decl
  {
    HasType(v, decl[k]) && (k in casts ==> HasType(v, casts[k]))
  }

  function Mentioned(a: Cond, k: string, t: Type, casts: Casts, decl: Casts): seq<Type>
    requires k in decl
  {
    [t, decl[k]] + (if k in casts then [casts[k]] else []) + (if a.Is? then [a.typ] else [])
  }

  // The condition can have that truth value.
  predicate CanBe(a: Cond, truth: bool, casts: Casts, decl: Casts)
    requires IsAtom(a) && Scoped(a, decl)
  {
    a.Other? ||
    exists v :: v in Candidates(Mentioned(a, a.access, decl[a.access], casts, decl)) &&
                Allowed(a.access, v, casts, decl) && Satisfies(a, v) == truth
  }

  // Every value of `k` under which, or beside which, `a` has that truth value
  // is of type `t`.
  predicate Covers(a: Cond, truth: bool, k: string, t: Type, casts: Casts, decl: Casts)
    requires IsAtom(a) && Scoped(a, decl) && k in decl
  {
    if Concerns(a, k) then
      forall v :: v in Candidates(Mentioned(a, k, t, casts, decl)) ==>
        (Allowed(k, v, casts, decl) && Satisfies(a, v) == truth ==> HasType(v, t))
    else
      CanBe(a, truth, casts, decl) ==>
        forall v :: v in Candidates(Mentioned(a, k, t, casts, decl)) ==> (Allowed(k, v, casts, decl) ==> HasType(v, t))
  }

  // ----- Environments -----

  ghost predicate Fine(env: Env, casts: Casts, decl: Casts) {
    Hold(casts, env) && Hold(decl, env) && forall x :: x in env.values ==> Plain(env.values[x])
  }

  lemma FineWith(env: Env, casts: Casts, decl: Casts, k: string, v: Value)
    requires Fine(env, casts, decl) && k in decl && Allowed(k, v, casts, decl) && Plain(v)
    ensures Fine(env.(values := env.values[k := v]), casts, decl)
  {
  }

  lemma MentionedAreDistinct(a: Cond, k: string, t: Type, env: Env, casts: Casts, decl: Casts)
    requires Fine(env, casts, decl) && k in decl && Scoped(a, decl) && Distinct(t)
    ensures var ts := Mentioned(a, k, t, casts, decl); forall i | 0 <= i < |ts| :: Distinct(ts[i])
  {
  }

  // ----- The test is exact -----

  lemma CoveredHolds(a: Cond, truth: bool, k: string, t: Type, casts: Casts, decl: Casts, env: Env)
    requires IsAtom(a) && Scoped(a, decl) && k in decl && Distinct(t)
    requires Fine(env, casts, decl) && True(a, env) == truth && Covers(a, truth, k, t, casts, decl)
    ensures HasType(env.values[k], t)
  {
    var v := env.values[k];
    var ts := Mentioned(a, k, t, casts, decl);
    MentionedAreDistinct(a, k, t, env, casts, decl);
    var w := CandidatesStandForAll(v, ts);
    AllowedAlike(a, k, t, v, w, casts, decl);
    if !Concerns(a, k) && !a.Other? {
      var ts' := Mentioned(a, a.access, decl[a.access], casts, decl);
      MentionedAreDistinct(a, a.access, decl[a.access], env, casts, decl);
      var w' := CandidatesStandForAll(env.values[a.access], ts');
      AllowedAlike(a, a.access, decl[a.access], env.values[a.access], w', casts, decl);
    }
  }

  lemma AllowedAlike(a: Cond, k: string, t: Type, v: Value, w: Value, casts: Casts, decl: Casts)
    requires k in decl && SameTypes(v, w, Mentioned(a, k, t, casts, decl))
    ensures HasType(v, t) == HasType(w, t) && Allowed(k, v, casts, decl) == Allowed(k, w, casts, decl)
    ensures a.EqNil? || a.NeNil? || a.Is? ==> Satisfies(a, v) == Satisfies(a, w)
  {
    var ts := Mentioned(a, k, t, casts, decl);
    assert ts[0] == t && ts[1] == decl[k];
    assert k in casts ==> ts[2] == casts[k];
    assert a.Is? ==> ts[|ts| - 1] == a.typ;
  }

  lemma BroughtAbout(a: Cond, truth: bool, k: string, casts: Casts, decl: Casts, env: Env) returns (e: Env)
    requires IsAtom(a) && Scoped(a, decl) && k in decl && !Concerns(a, k)
    requires Fine(env, casts, decl) && CanBe(a, truth, casts, decl)
    ensures Fine(e, casts, decl) && True(a, e) == truth && e.values[k] == env.values[k]
  {
    if a.Other? {
      e := env.(others := if truth then env.others + {a.which} else env.others - {a.which});
    } else {
      var y := a.access;
      var ts := Mentioned(a, y, decl[y], casts, decl);
      MentionedAreDistinct(a, y, decl[y], env, casts, decl);
      var w :| w in Candidates(ts) && Allowed(y, w, casts, decl) && Satisfies(a, w) == truth;
      CandidatesArePlain(ts, w);
      FineWith(env, casts, decl, y, w);
      e := env.(values := env.values[y := w]);
    }
  }

  lemma UncoveredFails(a: Cond, truth: bool, k: string, t: Type, casts: Casts, decl: Casts, env: Env) returns (bad: Env)
    requires IsAtom(a) && Scoped(a, decl) && k in decl && Distinct(t)
    requires Fine(env, casts, decl) && !Covers(a, truth, k, t, casts, decl)
    ensures Fine(bad, casts, decl) && True(a, bad) == truth && !HasType(bad.values[k], t)
  {
    var ts := Mentioned(a, k, t, casts, decl);
    MentionedAreDistinct(a, k, t, env, casts, decl);
    var v :| v in Candidates(ts) && Allowed(k, v, casts, decl) && !HasType(v, t) &&
             (Concerns(a, k) ==> Satisfies(a, v) == truth);
    CandidatesArePlain(ts, v);
    FineWith(env, casts, decl, k, v);
    bad := env.(values := env.values[k := v]);
    if !Concerns(a, k) { bad := BroughtAbout(a, truth, k, casts, decl, bad); }
  }

  // The accesses a condition casts are declared, and cast to plain types.
  lemma {:induction false} CastsAreDeclared(c: Cond, casts: Casts, decl: Casts)
    requires Scoped(c, decl)
    ensures forall k :: k in Narrow(c, casts, decl).0 || k in Narrow(c, casts, decl).1 ==> k in decl
    decreases c
  {
    match c
    case And(l, r) =>
      CastsAreDeclared(l, casts, decl);
      CastsAreDeclared(r, casts + Narrow(l, casts, decl).0, decl);
    case Or(l, r) =>
      CastsAreDeclared(l, casts, decl);
      CastsAreDeclared(r, casts, decl);
    case _ =>
  }

  predicate AllCover(a: Cond, truth: bool, cast: Casts, casts: Casts, decl: Casts)
    requires IsAtom(a) && Scoped(a, decl) && forall k :: k in cast ==> k in decl
  {
    forall k :: k in cast ==> Covers(a, truth, k, cast[k], casts, decl)
  }

  // ----- Chains -----

  // A chain of `||` alone, and one of `&&` alone.
  predicate OnlyOr(c: Cond) { if c.Or? then OnlyOr(c.left) && OnlyOr(c.right) else !c.And? }

  predicate OnlyAnd(c: Cond) { if c.And? then OnlyAnd(c.left) && OnlyAnd(c.right) else !c.Or? }

  // Its links, from left to right.
  function Links(c: Cond): (r: seq<Cond>)
    ensures |r| > 0 && forall a :: a in r ==> IsAtom(a)
  {
    if c.And? || c.Or? then Links(c.left) + Links(c.right) else [c]
  }

  lemma {:induction false} LinksAreScoped(c: Cond, decl: Casts)
    requires Scoped(c, decl)
    ensures forall a :: a in Links(c) ==> Scoped(a, decl)
  {
    if c.And? || c.Or? {
      LinksAreScoped(c.left, decl);
      LinksAreScoped(c.right, decl);
    }
  }

  // One link tells whether a chain of `||` is true, and one of `&&` false.
  lemma {:induction false} LinksTell(c: Cond, env: Env)
    ensures OnlyOr(c) ==> (True(c, env) <==> exists a :: a in Links(c) && True(a, env))
    ensures OnlyAnd(c) ==> (!True(c, env) <==> exists a :: a in Links(c) && !True(a, env))
  {
    if c.And? || c.Or? {
      LinksTell(c.left, env);
      LinksTell(c.right, env);
    }
  }

  // The casts of a chain of `||` are those of its last link.
  lemma {:induction false} LastDecides(c: Cond, casts: Casts, decl: Casts)
    requires OnlyOr(c) && Scoped(c, decl)
    ensures
      var last := Links(c)[|Links(c)| - 1];
      && Scoped(last, decl)
      && forall k :: k in Narrow(c, casts, decl).0 ==>
           k in Narrow(last, casts, decl).0 && Narrow(c, casts, decl).0[k] == Narrow(last, casts, decl).0[k]
  {
    if c.Or? { LastDecides(c.right, casts, decl); }
  }

  predicate LinksCover(links: seq<Cond>, truth: bool, cast: Casts, casts: Casts, decl: Casts)
    requires forall a :: a in links ==> IsAtom(a) && Scoped(a, decl)
    requires forall k :: k in cast ==> k in decl
  {
    forall a :: a in links ==> AllCover(a, truth, cast, casts, decl)
  }

  // The body casts of a chain of `||` hold wherever it is true, if and only if
  // every value that a link but the last lets through is of the type that the
  // last casts to.
  lemma OrCastsExactly(c: Cond, casts: Casts, decl: Casts, env: Env)
    requires OnlyOr(c) && Scoped(c, decl) && Fine(env, casts, decl)
    ensures forall k :: k in Narrow(c, casts, decl).0 ==> k in decl
    ensures forall a :: a in Links(c) ==> Scoped(a, decl)
    ensures
      var body := Narrow(c, casts, decl).0;
      (forall e :: Fine(e, casts, decl) && True(c, e) ==> Hold(body, e)) <==>
      LinksCover(Links(c)[..|Links(c)| - 1], true, body, casts, decl)
  {
    var body, links := Narrow(c, casts, decl).0, Links(c);
    CastsAreDeclared(c, casts, decl);
    LinksAreScoped(c, decl);
    if LinksCover(links[..|links| - 1], true, body, casts, decl) {
      forall e | Fine(e, casts, decl) && True(c, e) ensures Hold(body, e) { CoveredOrHolds(c, casts, decl, e); }
    } else {
      var a :| a in links[..|links| - 1] && !AllCover(a, true, body, casts, decl);
      var k :| k in body && !Covers(a, true, k, body[k], casts, decl);
      NarrowSound(c, casts, decl);
      var bad := UncoveredFails(a, true, k, body[k], casts, decl, env);
      LinksTell(c, bad);
      assert Fine(bad, casts, decl) && True(c, bad) && !Hold(body, bad);
    }
  }

  lemma CoveredOrHolds(c: Cond, casts: Casts, decl: Casts, e: Env)
    requires OnlyOr(c) && Scoped(c, decl) && Fine(e, casts, decl) && True(c, e)
    requires forall a :: a in Links(c) ==> Scoped(a, decl)
    requires forall k :: k in Narrow(c, casts, decl).0 ==> k in decl
    requires LinksCover(Links(c)[..|Links(c)| - 1], true, Narrow(c, casts, decl).0, casts, decl)
    ensures Hold(Narrow(c, casts, decl).0, e)
  {
    var body, links := Narrow(c, casts, decl).0, Links(c);
    LinksTell(c, e);
    NarrowSound(c, casts, decl);
    var a :| a in links && True(a, e);
    if a in links[..|links| - 1] {
      forall k | k in body ensures HasType(e.values[k], body[k]) { CoveredHolds(a, true, k, body[k], casts, decl, e); }
    } else {
      assert a == links[|links| - 1];
      LastDecides(c, casts, decl);
      BodyCastsHold(a, casts, decl, e);
    }
  }

  // The alternative casts of a chain of `&&` hold wherever it is false, if and
  // only if every value with which a link is false is of the type cast to.
  lemma AndCastsExactly(c: Cond, casts: Casts, decl: Casts, env: Env)
    requires OnlyAnd(c) && Scoped(c, decl) && Fine(env, casts, decl)
    ensures forall k :: k in Narrow(c, casts, decl).1 ==> k in decl
    ensures forall a :: a in Links(c) ==> Scoped(a, decl)
    ensures
      var alt := Narrow(c, casts, decl).1;
      (forall e :: Fine(e, casts, decl) && !True(c, e) ==> Hold(alt, e)) <==>
      LinksCover(Links(c), false, alt, casts, decl)
  {
    var alt, links := Narrow(c, casts, decl).1, Links(c);
    CastsAreDeclared(c, casts, decl);
    LinksAreScoped(c, decl);
    NarrowSound(c, casts, decl);
    if LinksCover(links, false, alt, casts, decl) {
      forall e | Fine(e, casts, decl) && !True(c, e) ensures Hold(alt, e) {
        LinksTell(c, e);
        var a :| a in links && !True(a, e);
        forall k | k in alt ensures HasType(e.values[k], alt[k]) { CoveredHolds(a, false, k, alt[k], casts, decl, e); }
      }
    } else {
      var a :| a in links && !AllCover(a, false, alt, casts, decl);
      var k :| k in alt && !Covers(a, false, k, alt[k], casts, decl);
      var bad := UncoveredFails(a, false, k, alt[k], casts, decl, env);
      LinksTell(c, bad);
      assert Fine(bad, casts, decl) && !True(c, bad) && !Hold(alt, bad);
    }
  }

  // ----- Any condition -----

  // The types a condition tests, and which of the others it consists of.
  function Tested(c: Cond): seq<Type> {
    if c.And? || c.Or? then Tested(c.left) + Tested(c.right) else if c.Is? then [c.typ] else []
  }

  function Others(c: Cond): set<nat> {
    if c.And? || c.Or? then Others(c.left) + Others(c.right) else if c.Other? then {c.which} else {}
  }

  ghost predicate Knows(ts: seq<Type>, c: Cond, cast: Casts, casts: Casts, decl: Casts) {
    && (forall i | 0 <= i < |ts| :: Distinct(ts[i]))
    && (forall t :: t in Tested(c) ==> t in ts)
    && (forall k :: k in cast ==> cast[k] in ts)
    && (forall k :: k in casts ==> casts[k] in ts)
    && (forall k :: k in decl ==> decl[k] in ts)
  }

  // One of finitely many environments.
  ghost predicate Small(e: Env, ts: seq<Type>, c: Cond, decl: Casts) {
    e.values.Keys == decl.Keys && e.others <= Others(c) && forall k :: k in e.values ==> e.values[k] in Candidates(ts)
  }

  ghost predicate StandsFor(v: Value, w: Value, ts: seq<Type>) {
    w in Candidates(ts) && Plain(w) && SameTypes(v, w, ts)
  }

  ghost function Stand(v: Value, ts: seq<Type>): (w: Value)
    requires exists w :: StandsFor(v, w, ts)
    ensures StandsFor(v, w, ts)
  {
    var w :| StandsFor(v, w, ts);
    w
  }

  // Two environments that no type known tells apart.
  ghost predicate EnvsAlike(e: Env, e': Env, ts: seq<Type>, c: Cond, decl: Casts) {
    && (forall k :: k in decl ==> k in e.values && k in e'.values && SameTypes(e.values[k], e'.values[k], ts))
    && forall n :: n in Others(c) ==> (n in e.others <==> n in e'.others)
  }

  lemma {:induction false} TrueAlike(c: Cond, e: Env, e': Env, ts: seq<Type>, decl: Casts)
    requires Scoped(c, decl) && EnvsAlike(e, e', ts, c, decl) && forall t :: t in Tested(c) ==> t in ts
    ensures True(c, e) == True(c, e')
  {
    if c.And? || c.Or? {
      TrueAlike(c.left, e, e', ts, decl);
      TrueAlike(c.right, e, e', ts, decl);
    }
  }

  lemma {:induction false} HoldAlike(cast: Casts, e: Env, e': Env, ts: seq<Type>, c: Cond, decl: Casts)
    requires EnvsAlike(e, e', ts, c, decl) && cast.Keys <= decl.Keys && forall k :: k in cast ==> cast[k] in ts
    ensures Hold(cast, e) == Hold(cast, e')
  {
  }

  lemma {:induction false} ShrinkEnv(e: Env, ts: seq<Type>, c: Cond, casts: Casts, decl: Casts) returns (small: Env)
    requires Fine(e, casts, decl) && forall i | 0 <= i < |ts| :: Distinct(ts[i])
    ensures Small(small, ts, c, decl) && EnvsAlike(e, small, ts, c, decl)
    ensures forall k :: k in small.values ==> Plain(small.values[k])
  {
    forall k | k in decl ensures exists w :: StandsFor(e.values[k], w, ts) {
      var w := CandidatesStandForAll(e.values[k], ts);
      assert StandsFor(e.values[k], w, ts);
    }
    small := Env(map k | k in decl :: Stand(e.values[k], ts), e.others * Others(c));
    forall k | k in decl ensures StandsFor(e.values[k], small.values[k], ts) {}
  }

  function CastsWhere(c: Cond, truth: bool, casts: Casts, decl: Casts): Casts
    requires Scoped(c, decl)
  {
    if truth then Narrow(c, casts, decl).0 else Narrow(c, casts, decl).1
  }

  lemma {:induction false} SmallIsFine(
    e: Env, small: Env, ts: seq<Type>, c: Cond, cast: Casts, casts: Casts, decl: Casts)
    requires Fine(e, casts, decl) && EnvsAlike(e, small, ts, c, decl) && Knows(ts, c, cast, casts, decl)
    requires casts.Keys <= decl.Keys && forall k :: k in small.values ==> Plain(small.values[k])
    ensures Fine(small, casts, decl)
  {
    HoldAlike(casts, e, small, ts, c, decl);
    HoldAlike(decl, e, small, ts, c, decl);
  }

  // The casts hold wherever `c` has that truth value, among all environments
  // and among finitely many.
  ghost predicate CastsHold(c: Cond, truth: bool, cast: Casts, casts: Casts, decl: Casts) {
    forall e :: Fine(e, casts, decl) && True(c, e) == truth ==> Hold(cast, e)
  }

  ghost predicate CastsHoldInSmall(c: Cond, truth: bool, cast: Casts, casts: Casts, decl: Casts, ts: seq<Type>) {
    forall e :: Small(e, ts, c, decl) && Fine(e, casts, decl) && True(c, e) == truth ==> Hold(cast, e)
  }

  lemma {:induction false} HoldsInSmall(
    e: Env, c: Cond, truth: bool, cast: Casts, casts: Casts, decl: Casts, ts: seq<Type>)
    requires Scoped(c, decl) && casts.Keys <= decl.Keys && cast.Keys <= decl.Keys && Knows(ts, c, cast, casts, decl)
    requires CastsHoldInSmall(c, truth, cast, casts, decl, ts) && Fine(e, casts, decl) && True(c, e) == truth
    ensures Hold(cast, e)
  {
    var small := ShrinkEnv(e, ts, c, casts, decl);
    TrueAlike(c, e, small, ts, decl);
    SmallIsFine(e, small, ts, c, cast, casts, decl);
    HoldAlike(cast, e, small, ts, c, decl);
  }

  // For every condition: its casts hold wherever it has that truth value, if and
  // only if they do in each of finitely many environments.
  lemma {:induction false} FewEnvironmentsTell(c: Cond, truth: bool, casts: Casts, decl: Casts, ts: seq<Type>)
    requires Scoped(c, decl) && casts.Keys <= decl.Keys
    requires Knows(ts, c, CastsWhere(c, truth, casts, decl), casts, decl)
    ensures
      var cast := CastsWhere(c, truth, casts, decl);
      CastsHold(c, truth, cast, casts, decl) <==> CastsHoldInSmall(c, truth, cast, casts, decl, ts)
  {
    var cast := CastsWhere(c, truth, casts, decl);
    CastsAreDeclared(c, casts, decl);
    if CastsHoldInSmall(c, truth, cast, casts, decl, ts) {
      forall e | Fine(e, casts, decl) && True(c, e) == truth ensures Hold(cast, e) {
        HoldsInSmall(e, c, truth, cast, casts, decl, ts);
      }
    }
  }
}
