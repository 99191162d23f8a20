/** The types the parser can produce, and their round trip through the printer. */
module TypeRound {
  import opened Prelude
  import opened Parsing
  import opened TypeSyntax

  // Whatever follows can extend `t` directly: it does not end in a type that
  // takes everything on its right.
  predicate Closed(t: Type) { t.par || !(t.body.TypeRef? || t.body.TypeUnion? || t.body.TypeFn?) }

  // The source of `t` ends in a parenthesised type.
  predicate EndsPar(t: Type)
    decreases t
  {
    t.par ||
    match t.body
    case TypeRef(x) => EndsPar(x)
    case TypeFn(_, ret, _) => EndsPar(ret)
    case TypeUnion(subs) => LastEndsPar(subs)
    case _ => false
  }

  predicate LastEndsPar(ts: Types)
    decreases ts
  {
    match ts
    case NoTypes => false
    case MoreTypes(t, NoTypes) => EndsPar(t)
    case MoreTypes(_, others) => LastEndsPar(others)
  }

  // What the parser can produce.
  predicate Formed(t: Type)
    decreases t
  {
    match t.body
    case TypeId(_) => true
    case TypeMember(x, _) => Formed(x) && (x.body.TypeId? || x.body.TypeMember?)
    case TypeArray(x) => Formed(x) && Closed(x)
    case TypeMap(key, v) => key.body.TypeId? && Formed(v) && Closed(v)
    case TypeOptional(x) => Formed(x) && Closed(x)
    case TypeRef(x) => Formed(x)
    case TypeUnion(subs) => subs.MoreTypes? && subs.others.MoreTypes? && UnionFormed(subs)
    case TypeFn(ps, ret, _) => ParamsFormed(ps) && Formed(ret)
  }

  // Only the last member of a union can take everything on its right, and it
  // is not itself a union.
  predicate UnionFormed(ts: Types)
    decreases ts
  {
    match ts
    case NoTypes => true
    case MoreTypes(t, NoTypes) => Formed(t) && (t.par || !t.body.TypeUnion?)
    case MoreTypes(t, others) => Formed(t) && Closed(t) && UnionFormed(others)
  }

  predicate ParamsFormed(ps: Params)
    decreases ps
  {
    match ps
    case NoParams => true
    case MoreParams(id, t, isMut, _, others) => (isMut ==> id.Some?) && Formed(t) && ParamsFormed(others)
  }

  predicate Extends(k: Tokens) { Starts(k, Dot) || Starts(k, LBrack) || Starts(k, Pipe) || Starts(k, Qn) }

  // `k` can follow `t` without becoming part of it.
  predicate Follows(t: Type, k: Tokens) { !Extends(k) && (EndsPar(t) ==> !Starts(k, Arrow)) }

  // ----- print, then parse -----

  // The parser reads a printed type and goes on with what follows.
  lemma {:induction false} TypeReads(t: Type, k: Tokens)
    requires Formed(t) && (Closed(t) || !Extends(k)) && (EndsPar(t) ==> !Starts(k, Arrow))
    ensures ParseType(PrintType(t, k)) == WrapType(t, k)
    decreases t.body, t.par, 1
  {
    if t.par {
      ParReads(t, k);
    } else {
      match t.body
      case TypeId(_) =>
      case TypeRef(x) => TypeReads(x, k);
      case TypeUnion(subs) => UnionReads(subs, k);
      case TypeFn(ps, ret, isAsync) => FnReads(t, k);
      case _ => SuffixReads(t, k);
    }
  }

  lemma {:induction false} SuffixReads(t: Type, k: Tokens)
    requires !t.par && Formed(t)
    requires t.body.TypeMember? || t.body.TypeArray? || t.body.TypeMap? || t.body.TypeOptional?
    ensures ParseType(PrintType(t, k)) == WrapType(t, k)
    decreases t.body, t.par, 0
  {
    match t.body
    case TypeMember(x, m) => TypeReads(x, Next(Sym(Dot), Next(Id(m), k)));
    case TypeArray(x) => TypeReads(x, Next(Sym(LBrack), Next(Sym(RBrack), k)));
    case TypeOptional(x) => TypeReads(x, Next(Sym(Qn), k));
    case TypeMap(key, v) =>
      TypeReads(v, Next(Sym(LBrack), PrintType(key, Next(Sym(RBrack), k))));
      TypeReads(key, Next(Sym(RBrack), k));
  }

  lemma {:induction false} ParReads(t: Type, k: Tokens)
    requires t.par && Formed(t) && !Starts(k, Arrow)
    ensures ParseType(PrintType(t, k)) == WrapType(t, k)
    decreases t.body, false, 2
  {
    var inner, end := Type(t.body, false), Next(Sym(RPar), k);
    TypeReads(inner, end);
    var ts := PrintType(inner, end);
    TypeStarts(inner, end);
    assert ParseHead(ts) == Ok(Head(None, false), ts);
    assert ParseParams(end, false, true) == Ok(Listed(NoParams, None, false), k);
    assert ParseParams(ts, false, false) ==
           Ok(Listed(MoreParams(None, inner, false, false, NoParams), Some(inner), false), k);
  }

  // No printed type starts like a parameter's name or like the end of a list.
  lemma {:induction false} TypeStarts(t: Type, k: Tokens)
    requires Formed(t) && !Starts(k, Colon)
    ensures
      var ts := PrintType(t, k);
      && ts.Next? && !Starts(ts, RPar) && !Starts(ts, RBrack) && !Starts(ts, Mut)
      && !(ts.tok.Id? && Starts(ts.rest, Colon))
    decreases t
  {
    if !t.par {
      match t.body
      case TypeId(_) =>
      case TypeMember(x, m) => TypeStarts(x, Next(Sym(Dot), Next(Id(m), k)));
      case TypeArray(x) => TypeStarts(x, Next(Sym(LBrack), Next(Sym(RBrack), k)));
      case TypeMap(key, v) => TypeStarts(v, Next(Sym(LBrack), PrintType(key, Next(Sym(RBrack), k))));
      case TypeOptional(x) => TypeStarts(x, Next(Sym(Qn), k));
      case TypeRef(_) =>
      case TypeUnion(subs) =>
        var k1 := Next(Sym(Pipe), PrintUnion(subs.others, k));
        TypeStarts(subs.first, k1);
        assert PrintUnion(subs, k) == PrintType(subs.first, k1);
      case TypeFn(_, _, _) =>
    }
  }

  lemma {:induction false} UnionReads(ts: Types, k: Tokens)
    requires UnionFormed(ts) && ts.MoreTypes? && ts.others.MoreTypes? && !Extends(k)
    requires LastEndsPar(ts) ==> !Starts(k, Arrow)
    ensures ParseType(PrintUnion(ts, k)) == Ok(Type(TypeUnion(ts), false), k)
    decreases ts
  {
    var t, others := ts.first, ts.others;
    assert ts == MoreTypes(t, others) && Formed(t) && Closed(t) && UnionFormed(others);
    assert LastEndsPar(ts) == LastEndsPar(others);
    TypeReads(t, Next(Sym(Pipe), PrintUnion(others, k)));
    if others.others.NoTypes? {
      assert others == MoreTypes(others.first, NoTypes);
      assert LastEndsPar(others) == EndsPar(others.first);
      TypeReads(others.first, k);
      assert ParseType(PrintUnion(others, k)) == Ok(others.first, k);
    } else {
      UnionReads(others, k);
    }
  }

  lemma {:induction false} FnReads(t: Type, k: Tokens)
    requires !t.par && t.body.TypeFn? && Formed(t) && !Extends(k) && (EndsPar(t) ==> !Starts(k, Arrow))
    ensures ParseType(PrintType(t, k)) == Ok(t, k)
    decreases t.body, t.par, 0
  {
    var ps, ret := t.body.params, t.body.ret;
    var plain := Type(TypeFn(ps, ret, false), false);
    var k1 := Next(Sym(Arrow), PrintType(ret, k));
    var ts := PrintParams(ps, Next(Sym(RPar), k1));
    TypeReads(ret, k);
    ParamsRead(ps, k1, false, false);
    assert WrapType(ret, k) == Ok(ret, k) && WrapType(plain, k) == Ok(plain, k);
    var l := ParseParams(ts, false, false);
    assert ParseList(l, 1 + Len(ts)) == Ok(plain, k);
    assert ParseType(Next(Sym(LPar), ts)) == Ok(plain, k);
  }

  lemma {:induction false} ParamsRead(ps: Params, k: Tokens, isArgs: bool, more: bool)
    requires ParamsFormed(ps)
    ensures
      var r := ParseParams(PrintParams(ps, Next(Sym(RPar), k)), isArgs, more);
      r.Ok? && r.value.params == ps && r.rest == k
    decreases ps
  {
    match ps
    case NoParams =>
    case MoreParams(id, t, isMut, variadic, others) =>
      var end := Next(Sym(RPar), k);
      var k1 := if others.NoParams? then end else Next(Sym(Comma), PrintParams(others, end));
      var k2 := if variadic then Next(Sym(Ellipsis), k1) else k1;
      TypeReads(t, k2);
      HeadReads(id, isMut, t, k2);
      ParamsRead(others, k, isArgs || id.Some? || Starts(k1, Comma), true);
      assert SkipEllipsis(k2) == k1 && SkipComma(k1) == PrintParams(others, end);
      ParamReads(PrintParams(ps, end), Head(id, isMut), PrintType(t, k2), t, k2, isArgs, more);
  }

  lemma ParamReads(ts: Tokens, head: Head, from: Tokens, t: Type, k: Tokens, isArgs: bool, more: bool)
    requires !Starts(ts, RPar) && ParseHead(ts) == Ok(head, from) && ParseType(from) == Ok(t, k)
    ensures
      var k1 := SkipEllipsis(k);
      var r := ParseParams(ts, isArgs, more);
      var r1 := ParseParams(SkipComma(k1), isArgs || head.id.Some? || Starts(k1, Comma), true);
      r1.Ok? ==>
        && r.Ok? && r.rest == r1.rest
        && r.value.params == MoreParams(head.id, t, head.isMut, Starts(k, Ellipsis), r1.value.params)
  {
  }

  lemma HeadReads(id: Option<string>, isMut: bool, t: Type, k: Tokens)
    requires Formed(t) && (isMut ==> id.Some?) && !Starts(k, Colon)
    ensures
      var ts := PrintHead(id, isMut, PrintType(t, k));
      !Starts(ts, RPar) && ParseHead(ts) == Ok(Head(id, isMut), PrintType(t, k))
  {
    TypeStarts(t, k);
  }

  // parse(print(t)) == t, and exactly the tokens of `t` are consumed.
  lemma TypePrintParse(t: Type, k: Tokens)
    requires Formed(t) && Follows(t, k)
    ensures ParseType(PrintType(t, k)) == Ok(t, k)
  {
    TypeReads(t, k);
  }
}
