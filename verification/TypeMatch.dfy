/** `Type::matchStrict` on finite type trees, and the relation it is. */
module TypeMatch {
  import opened Prelude

  // Every type carries the `builtin` flag; only interning looks at it.
  datatype Type = Type(body: Body, builtin: bool)

  datatype Body =
    | Named(name: string) // objects, enumerations, enumerators, namespaces
    | Alias(name: string, target: Type)
    | Array(elem: Type)
    | Fn(ret: Type, params: seq<Param>, isMethod: bool, isAsync: bool, call: CallInfo)
    | MapOf(key: Type, value: Type)
    | Opt(arg: Type)
    | Ref(arg: Type)
    | Union(subs: seq<Type>)

  datatype Param = Param(name: Option<string>, typ: Type, isMut: bool, required: bool, variadic: bool)

  // `self` is present if and only if `isSelfFirst`.
  datatype CallInfo = CallInfo(codeName: string, self: Option<SelfInfo>)

  datatype SelfInfo = SelfInfo(codeName: string, typ: Type, isMut: bool)

  // `Type::actual`.
  function Actual(t: Type): (r: Type)
    ensures !r.body.Alias? && Size(r) <= Size(t) && (!t.body.Alias? ==> r == t)
    decreases t
  {
    if t.body.Alias? then Actual(t.body.target) else t
  }

  function Size(t: Type): (n: nat)
    ensures n > 0
    decreases t, 0
  {
    BodySize(t.body)
  }

  function BodySize(b: Body): (n: nat)
    ensures n > 0
    decreases b, 0
  {
    match b
    case Named(_) => 1
    case Alias(_, x) => 1 + Size(x)
    case Array(x) => 1 + Size(x)
    case Fn(ret, ps, _, _, call) =>
      1 + Size(ret) + ParamSizes(ps) + if call.self.Some? then Size(call.self.value.typ) else 0
    case MapOf(k, v) => 1 + Size(k) + Size(v)
    case Opt(x) => 1 + Size(x)
    case Ref(x) => 1 + Size(x)
    case Union(ts) => 1 + Sizes(ts)
  }

  function Sizes(ts: seq<Type>): nat
    decreases ts, 0
  {
    if ts == [] then 0 else Size(ts[0]) + Sizes(ts[1..])
  }

  function ParamSize(p: Param): nat
    decreases p, 1
  {
    Size(p.typ)
  }

  function ParamSizes(ps: seq<Param>): nat
    decreases ps, 0
  {
    if ps == [] then 0 else ParamSize(ps[0]) + ParamSizes(ps[1..])
  }

  lemma {:induction false} SizeAt(ts: seq<Type>, i: nat)
    requires i < |ts|
    ensures Size(ts[i]) <= Sizes(ts)
  {
    if i > 0 { SizeAt(ts[1..], i - 1); }
  }

  lemma {:induction false} ParamSizeAt(ps: seq<Param>, i: nat)
    requires i < |ps|
    ensures Size(ps[i].typ) <= ParamSizes(ps)
  {
    if i > 0 { ParamSizeAt(ps[1..], i - 1); }
  }

  // `matchStrict`.
  predicate Match(a: Type, b: Type, exact: bool)
    decreases Size(a) + Size(b), 2
  {
    if a.body.Alias? then
      assert Size(a) == BodySize(a.body);
      Match(a.body.target, b, exact)
    else
      var b' := Actual(b);
      assert Size(b') == BodySize(b'.body);
      Same(a.body, b'.body, exact)
  }

  predicate Same(a: Body, b: Body, exact: bool)
    requires !a.Alias? && !b.Alias?
    decreases BodySize(a) + BodySize(b), 1
  {
    if a.Array? || b.Array? then a.Array? && b.Array? && Match(a.elem, b.elem, exact)
    else if a.Fn? || b.Fn? then a.Fn? && b.Fn? && SameFn(a, b, exact)
    else if a.MapOf? || b.MapOf? then
      a.MapOf? && b.MapOf? && Match(a.key, b.key, exact) && Match(a.value, b.value, exact)
    else if a.Opt? || b.Opt? then a.Opt? && b.Opt? && Match(a.arg, b.arg, exact)
    else if a.Ref? || b.Ref? then a.Ref? && b.Ref? && Match(a.arg, b.arg, exact)
    else if a.Union? || b.Union? then
      a.Union? && b.Union? && |a.subs| == |b.subs| &&
      forall i | 0 <= i < |a.subs| :: SizeAt(a.subs, i); HasSubType(b.subs, a.subs[i])
    else a.name == b.name
  }

  predicate SameFn(a: Body, b: Body, exact: bool)
    requires a.Fn? && b.Fn?
    decreases BodySize(a) + BodySize(b), 0
  {
    && Match(a.ret, b.ret, exact) && |a.params| == |b.params| && a.isAsync == b.isAsync && a.isMethod == b.isMethod
    && (exact ==> a.call.codeName == b.call.codeName)
    && a.call.self.Some? == b.call.self.Some?
    && (a.call.self.Some? ==>
          var x, y := a.call.self.value, b.call.self.value;
          x.codeName == y.codeName && Match(x.typ, y.typ, exact) && x.isMut == y.isMut)
    && forall i | 0 <= i < |a.params| ::
         ParamSizeAt(a.params, i);
         ParamSizeAt(b.params, i);
         SameParam(a.params[i], b.params[i], exact) && Match(a.params[i].typ, b.params[i].typ, exact)
  }

  predicate SameParam(x: Param, y: Param, exact: bool) {
    (exact ==> x.name == y.name) && x.isMut == y.isMut && x.required == y.required && x.variadic == y.variadic
  }

  // `hasSubType`, of a union's members.
  predicate HasSubType(subs: seq<Type>, t: Type)
    decreases Sizes(subs) + Size(t), 3
  {
    exists j | 0 <= j < |subs| :: SizeAt(subs, j); Match(subs[j], t, true)
  }
}
