/** The printed type against the tokens the parser consumed: what printing may
    tidy up, and when there is nothing to tidy up. */
module TypeTokens {
  import opened Prelude
  import opened Parsing
  import opened TypeSyntax
  import opened TypeRound
  import opened TypeSound

  // ----- Lists as they may have been written -----

  // `commas` says behind which parameters a comma stands.
  function LooseParams(ps: Params, commas: seq<bool>, k: Tokens): Tokens {
    match ps
    case NoParams => k
    case MoreParams(id, t, isMut, variadic, others) =>
      var k1 := WithComma(commas, LooseParams(others, Others(commas), k));
      PrintHead(id, isMut, PrintType(t, if variadic then Next(Sym(Ellipsis), k1) else k1))
  }

  // A list without names and commas: what is kept of it without an arrow is
  // its last type.
  predicate Bare(ps: Params) {
    match ps
    case NoParams => true
    case MoreParams(id, _, isMut, _, others) => id.None? && !isMut && Bare(others)
  }

  function LastType(ps: Params): (r: Option<Type>)
    ensures ps.MoreParams? <==> r.Some?
  {
    match ps
    case NoParams => None
    case MoreParams(_, t, _, _, NoParams) => Some(t)
    case MoreParams(_, _, _, _, others) => LastType(others)
  }

  // ----- What printing may change -----

  // The commas of a parameter list are put between its parameters; a list that
  // an arrow cuts short is closed; of a list without an arrow only the last
  // type is kept, without its dots and without parentheses of its own; `async`
  // is written once, and not in front of parentheses around the function.
  datatype Tidying =
    | Same
    | Then(first: Tidying, mid: Tokens, second: Tidying)
    | Under(inner: Tidying)
    | ParamCommas(params: Params, commas: seq<bool>, k: Tokens)
    | CloseList(k: Tokens)
    | KeepLast(params: Params, k: Tokens)
    | OneAsync(fn: Type, k: Tokens)

  predicate Tidies(c: Tidying, ts: Tokens, ts': Tokens) {
    match c
    case Same => ts == ts'
    case Then(c1, mid, c2) => Tidies(c1, ts, mid) && Tidies(c2, mid, ts')
    case Under(c1) => ts.Next? && ts'.Next? && ts.tok == ts'.tok && Tidies(c1, ts.rest, ts'.rest)
    case ParamCommas(ps, commas, k) =>
      && ts == Next(Sym(LPar), LooseParams(ps, commas, Next(Sym(RPar), Next(Sym(Arrow), k))))
      && ts' == Next(Sym(LPar), PrintParams(ps, Next(Sym(RPar), Next(Sym(Arrow), k))))
    case CloseList(k) =>
      && ts == Next(Sym(LPar), Next(Sym(Arrow), k))
      && ts' == Next(Sym(LPar), Next(Sym(RPar), Next(Sym(Arrow), k)))
    case KeepLast(ps, k) =>
      && Bare(ps) && LastType(ps).Some? && !Starts(k, Arrow)
      && ts == Next(Sym(LPar), LooseParams(ps, [], Next(Sym(RPar), k)))
      && ts' == PrintType(Type(LastType(ps).value.body, true), k)
    case OneAsync(t, k) =>
      && t.body.TypeFn? && ts == Next(Sym(Async), PrintType(t, k))
      && ts' == PrintType(Type(TypeFn(t.body.params, t.body.ret, true), false), k)
  }

  // ----- Tidying behind a type -----

  lemma {:induction false} Lift(t: Type, c: Tidying, ts: Tokens, ts': Tokens) returns (d: Tidying)
    requires Tidies(c, ts, ts')
    ensures Tidies(d, PrintType(t, ts), PrintType(t, ts'))
    decreases t, 0
  {
    if t.par {
      d := LiftBody(t.body, Under(c), Next(Sym(RPar), ts), Next(Sym(RPar), ts'));
      d := Under(d);
    } else {
      d := LiftBody(t.body, c, ts, ts');
    }
  }

  lemma {:induction false} LiftBody(b: TypeBody, c: Tidying, ts: Tokens, ts': Tokens) returns (d: Tidying)
    requires Tidies(c, ts, ts')
    ensures Tidies(d, PrintTypeBody(b, ts), PrintTypeBody(b, ts'))
    decreases b, 1
  {
    match b
    case TypeId(_) => d := Under(c);
    case TypeMember(x, m) =>
      d := Lift(x, Under(Under(c)), Next(Sym(Dot), Next(Id(m), ts)), Next(Sym(Dot), Next(Id(m), ts')));
    case TypeArray(x) =>
      d := Lift(x, Under(Under(c)), Next(Sym(LBrack), Next(Sym(RBrack), ts)),
                Next(Sym(LBrack), Next(Sym(RBrack), ts')));
    case TypeMap(key, v) =>
      d := Lift(key, Under(c), Next(Sym(RBrack), ts), Next(Sym(RBrack), ts'));
      d := Lift(v, Under(d), Next(Sym(LBrack), PrintType(key, Next(Sym(RBrack), ts))),
                Next(Sym(LBrack), PrintType(key, Next(Sym(RBrack), ts'))));
    case TypeOptional(x) => d := Lift(x, Under(c), Next(Sym(Qn), ts), Next(Sym(Qn), ts'));
    case TypeRef(x) =>
      d := Lift(x, c, ts, ts');
      d := Under(d);
    case TypeUnion(subs) => d := LiftUnion(subs, c, ts, ts');
    case TypeFn(ps, ret, isAsync) =>
      d := Lift(ret, c, ts, ts');
      d := LiftParams(ps, Under(Under(d)), Next(Sym(RPar), Next(Sym(Arrow), PrintType(ret, ts))),
                      Next(Sym(RPar), Next(Sym(Arrow), PrintType(ret, ts'))));
      d := Under(d);
      if isAsync { d := Under(d); }
  }

  lemma {:induction false} LiftUnion(xs: Types, c: Tidying, ts: Tokens, ts': Tokens) returns (d: Tidying)
    requires Tidies(c, ts, ts')
    ensures Tidies(d, PrintUnion(xs, ts), PrintUnion(xs, ts'))
    decreases xs, 0
  {
    match xs
    case NoTypes => d := c;
    case MoreTypes(x, NoTypes) => d := Lift(x, c, ts, ts');
    case MoreTypes(x, MoreTypes(y, ys)) =>
      var others := MoreTypes(y, ys);
      d := LiftUnion(others, c, ts, ts');
      d := Lift(x, Under(d), Next(Sym(Pipe), PrintUnion(others, ts)), Next(Sym(Pipe), PrintUnion(others, ts')));
  }

  lemma {:induction false} LiftParams(ps: Params, c: Tidying, ts: Tokens, ts': Tokens) returns (d: Tidying)
    requires Tidies(c, ts, ts')
    ensures Tidies(d, PrintParams(ps, ts), PrintParams(ps, ts'))
    decreases ps, 0
  {
    match ps
    case NoParams => d := c;
    case MoreParams(id, t, isMut, variadic, others) =>
      var k, k' := ts, ts';
      d := c;
      if !others.NoParams? {
        d := LiftParams(others, c, ts, ts');
        d := Under(d);
        k, k' := Next(Sym(Comma), PrintParams(others, ts)), Next(Sym(Comma), PrintParams(others, ts'));
      }
      d := LiftParam(id, isMut, t, variadic, d, k, k');
  }

  lemma {:induction false} LiftParam(
    id: Option<string>, isMut: bool, t: Type, variadic: bool, c: Tidying, k: Tokens, k': Tokens)
    returns (d: Tidying)
    requires Tidies(c, k, k')
    ensures Tidies(d, PrintHead(id, isMut, PrintType(t, if variadic then Next(Sym(Ellipsis), k) else k)),
                   PrintHead(id, isMut, PrintType(t, if variadic then Next(Sym(Ellipsis), k') else k')))
    decreases t, 2
  {
    if variadic {
      d := Lift(t, Under(c), Next(Sym(Ellipsis), k), Next(Sym(Ellipsis), k'));
    } else {
      d := Lift(t, c, k, k');
    }
    d := UnderHead(id, isMut, d, PrintType(t, if variadic then Next(Sym(Ellipsis), k) else k),
                   PrintType(t, if variadic then Next(Sym(Ellipsis), k') else k'));
  }

  lemma UnderHead(id: Option<string>, isMut: bool, c: Tidying, k: Tokens, k': Tokens) returns (d: Tidying)
    requires Tidies(c, k, k')
    ensures Tidies(d, PrintHead(id, isMut, k), PrintHead(id, isMut, k'))
  {
    d := c;
    if id.Some? { d := Under(Under(d)); }
    if isMut { d := Under(d); }
  }

  // ----- The tokens of the tree are those consumed, but for tidying -----

  lemma HeadPrints(ts: Tokens)
    requires ParseHead(ts).Ok?
    ensures
      var r := ParseHead(ts);
      ts == PrintHead(r.value.id, r.value.isMut, r.rest) && (r.value.isMut ==> r.value.id.Some?)
  {
  }

  lemma {:induction false} TypeTidies(ts: Tokens) returns (c: Tidying)
    requires ParseType(ts).Ok?
    ensures Tidies(c, ts, PrintType(ParseType(ts).value, ParseType(ts).rest))
    decreases Len(ts), 2
  {
    if ts.tok.Id? {
      assert ts == PrintType(Type(TypeId(ts.tok.name), false), ts.rest);
      c := WrapTidies(Type(TypeId(ts.tok.name), false), ts.rest);
    } else if Starts(ts, LPar) {
      c := ListTidies(ts.rest);
    } else {
      var t, rest := ParseType(ts.rest).value, ParseType(ts.rest).rest;
      var d := TypeTidies(ts.rest);
      if Starts(ts, Async) {
        var fn := Type(TypeFn(t.body.params, t.body.ret, true), false);
        c := WrapTidies(fn, rest);
        var mid := Next(Sym(Async), PrintType(t, rest));
        assert Tidies(OneAsync(t, rest), mid, PrintType(fn, rest));
        var end := PrintType(ParseType(ts).value, ParseType(ts).rest);
        c := Chain(OneAsync(t, rest), mid, PrintType(fn, rest), c, end);
        c := Chain(Under(d), ts, mid, c, end);
      } else {
        c := WrapTidies(Type(TypeRef(t), false), rest);
        assert PrintType(Type(TypeRef(t), false), rest) == Next(Sym(Ref), PrintType(t, rest));
        c := Chain(Under(d), ts, Next(Sym(Ref), PrintType(t, rest)), c,
                   PrintType(ParseType(ts).value, ParseType(ts).rest));
      }
    }
  }

  lemma Chain(c: Tidying, ts: Tokens, mid: Tokens, d: Tidying, ts': Tokens) returns (e: Tidying)
    requires Tidies(c, ts, mid) && Tidies(d, mid, ts')
    ensures Tidies(e, ts, ts')
  {
    e := Then(c, mid, d);
  }

  // What a suffix prints.
  lemma SuffixPrints(t: Type, m: string, key: Type, k: Tokens)
    ensures PrintType(Type(TypeMember(t, m), false), k) == PrintType(t, Next(Sym(Dot), Next(Id(m), k)))
    ensures PrintType(Type(TypeArray(t), false), k) == PrintType(t, Next(Sym(LBrack), Next(Sym(RBrack), k)))
    ensures PrintType(Type(TypeMap(key, t), false), k) ==
            PrintType(t, Next(Sym(LBrack), PrintType(key, Next(Sym(RBrack), k))))
    ensures PrintType(Type(TypeOptional(t), false), k) == PrintType(t, Next(Sym(Qn), k))
  {
  }

  lemma {:induction false} WrapTidies(t: Type, ts: Tokens) returns (c: Tidying)
    requires WrapType(t, ts).Ok?
    ensures Tidies(c, PrintType(t, ts), PrintType(WrapType(t, ts).value, WrapType(t, ts).rest))
    decreases Len(ts), 4
  {
    if Starts(ts, Dot) {
      assert Len(ts) == 2 + Len(ts.rest.rest);
      SuffixPrints(t, ts.rest.tok.name, t, ts.rest.rest);
      c := WrapTidies(Type(TypeMember(t, ts.rest.tok.name), false), ts.rest.rest);
    } else if Starts(ts, LBrack) {
      if Starts(ts.rest, RBrack) {
        assert Len(ts) == 2 + Len(ts.rest.rest);
        SuffixPrints(t, "", t, ts.rest.rest);
        c := WrapTidies(Type(TypeArray(t), false), ts.rest.rest);
      } else {
        var key := ParseType(ts.rest);
        var d := TypeTidies(ts.rest);
        d := Lift(t, Under(d), ts, Next(Sym(LBrack), PrintType(key.value, key.rest)));
        SuffixPrints(t, "", key.value, key.rest.rest);
        c := WrapTidies(Type(TypeMap(key.value, t), false), key.rest.rest);
        var r := WrapType(t, ts);
        c := Chain(d, PrintType(t, ts), PrintType(t, Next(Sym(LBrack), PrintType(key.value, key.rest))), c,
                   PrintType(r.value, r.rest));
      }
    } else if Starts(ts, Pipe) {
      var sub := ParseType(ts.rest);
      var d := TypeTidies(ts.rest);
      ParseTypeForms(ts.rest);
      d := Lift(t, Under(d), ts, Next(Sym(Pipe), PrintType(sub.value, sub.rest)));
      UnionPrints(t, sub.value, sub.rest);
      c := WrapTidies(Type(TypeUnion(MoreTypes(t, SubTypes(sub.value))), false), sub.rest);
      var r := WrapType(t, ts);
      c := Chain(d, PrintType(t, ts), PrintType(t, Next(Sym(Pipe), PrintType(sub.value, sub.rest))), c,
                 PrintType(r.value, r.rest));
    } else if Starts(ts, Qn) {
      SuffixPrints(t, "", t, ts.rest);
      c := WrapTidies(Type(TypeOptional(t), false), ts.rest);
    } else {
      c := Same;
    }
  }

  lemma UnionPrints(t: Type, sub: Type, k: Tokens)
    requires sub.body.TypeUnion? ==> sub.par || sub.body.subs.MoreTypes?
    ensures
      PrintType(Type(TypeUnion(MoreTypes(t, SubTypes(sub))), false), k) ==
      PrintType(t, Next(Sym(Pipe), PrintType(sub, k)))
  {
    var others := SubTypes(sub);
    assert others.MoreTypes? && PrintUnion(others, k) == PrintType(sub, k);
    assert PrintUnion(MoreTypes(t, others), k) == PrintType(t, Next(Sym(Pipe), PrintUnion(others, k)));
  }

  // The list does not end in front of an arrow, or anything else, that is
  // taken for its end.
  predicate Closes(ts: Tokens) {
    Starts(ts, RPar) || (ParseHead(ts).Ok? && ParseType(ParseHead(ts).rest).Ok?)
  }

  // What was read when it was no list of parameters.
  lemma {:induction false} ParamsAreBare(ts: Tokens, isArgs: bool, more: bool)
    requires ParseParams(ts, isArgs, more).Ok? && Closes(ts)
    ensures
      var l := ParseParams(ts, isArgs, more).value;
      l.last == LastType(l.params) && (isArgs ==> l.isArgs) && (!l.isArgs ==> Bare(l.params))
    decreases Len(ts)
  {
    if !Starts(ts, RPar) {
      var head, rest1 := ParseHead(ts).value, SkipEllipsis(ParseType(ParseHead(ts).rest).rest);
      ParamsAreBare(SkipComma(rest1), isArgs || head.id.Some? || Starts(rest1, Comma), true);
    }
  }

  lemma {:induction false} ParamsTidies(ts: Tokens, isArgs: bool, more: bool) returns (c: Tidying, commas: seq<bool>)
    requires ParseParams(ts, isArgs, more).Ok? && Closes(ts)
    ensures
      var l := ParseParams(ts, isArgs, more);
      && Tidies(c, ts, LooseParams(l.value.params, commas, Next(Sym(RPar), l.rest)))
      && (!l.value.isArgs ==> commas == [])
    decreases Len(ts), 3
  {
    if Starts(ts, RPar) {
      c, commas := Same, [];
    } else {
      var l := ParseParams(ts, isArgs, more);
      var head, from := ParseHead(ts).value, ParseHead(ts).rest;
      var t, rest := ParseType(from).value, ParseType(from).rest;
      var rest1 := SkipEllipsis(rest);
      var isArgs1 := isArgs || head.id.Some? || Starts(rest1, Comma);
      var c1 := TypeTidies(from);
      var d, cs := ParamsTidies(SkipComma(rest1), isArgs1, true);
      var others := l.value.params.others;
      var k := LooseParams(others, cs, Next(Sym(RPar), l.rest));
      ParamsAreBare(SkipComma(rest1), isArgs1, true);
      d, commas := CommaTidies(d, cs, rest1, k);
      c := ParamTidies(ts, head, from, t, rest, c1, d, WithComma(commas, k));
    }
  }

  // From what follows a parameter, perhaps a comma, to the next one.
  lemma CommaTidies(c: Tidying, commas: seq<bool>, ts: Tokens, ts': Tokens) returns (d: Tidying, commas': seq<bool>)
    requires Tidies(c, SkipComma(ts), ts')
    ensures Others(commas') == commas && Tidies(d, ts, WithComma(commas', ts'))
    ensures !Starts(ts, Comma) && commas == [] ==> commas' == []
  {
    if Starts(ts, Comma) {
      d, commas' := Under(c), [true] + commas;
    } else {
      d, commas' := c, if commas == [] then [] else [false] + commas;
    }
  }

  // One parameter, and `d` for what follows its dots.
  lemma ParamTidies(ts: Tokens, head: Head, from: Tokens, t: Type, rest: Tokens, c: Tidying, d: Tidying, k: Tokens)
    returns (r: Tidying)
    requires ParseHead(ts) == Ok(head, from) && Tidies(c, from, PrintType(t, rest)) && Tidies(d, SkipEllipsis(rest), k)
    ensures
      var k1 := if Starts(rest, Ellipsis) then Next(Sym(Ellipsis), k) else k;
      Tidies(r, ts, PrintHead(head.id, head.isMut, PrintType(t, k1)))
  {
    HeadPrints(ts);
    var k1 := if Starts(rest, Ellipsis) then Next(Sym(Ellipsis), k) else k;
    var d1 := if Starts(rest, Ellipsis) then Under(d) else d;
    assert Tidies(d1, rest, k1);
    var e := Lift(t, d1, rest, k1);
    r := UnderHead(head.id, head.isMut, Then(c, PrintType(t, rest), e), from, PrintType(t, k1));
  }

  lemma {:induction false} ListTidies(ts: Tokens) returns (c: Tidying)
    requires ParseList(ParseParams(ts, false, false), 1 + Len(ts)).Ok?
    ensures
      var r := ParseList(ParseParams(ts, false, false), 1 + Len(ts));
      Tidies(c, Next(Sym(LPar), ts), PrintType(r.value, r.rest))
    decreases Len(ts), 6
  {
    var l := ParseParams(ts, false, false);
    if Starts(l.rest, Arrow) {
      c := FnTidies(ts);
    } else {
      assert Closes(ts);
      var d, commas := ParamsTidies(ts, false, false);
      ParamsAreBare(ts, false, false);
      var ps, k := l.value.params, l.rest;
      var t := Type(l.value.last.value.body, true);
      var w := WrapTidies(t, k);
      assert Tidies(KeepLast(ps, k), Next(Sym(LPar), LooseParams(ps, [], Next(Sym(RPar), k))), PrintType(t, k));
      c := Then(Under(d), Next(Sym(LPar), LooseParams(ps, [], Next(Sym(RPar), k))),
                Then(KeepLast(ps, k), PrintType(t, k), w));
    }
  }

  // The list itself.
  lemma {:induction false} FnListTidies(ts: Tokens) returns (c: Tidying)
    requires ParseParams(ts, false, false).Ok? && Starts(ParseParams(ts, false, false).rest, Arrow)
    ensures
      var l := ParseParams(ts, false, false);
      Tidies(c, Next(Sym(LPar), ts), Next(Sym(LPar), PrintParams(l.value.params, Next(Sym(RPar), l.rest))))
    decreases Len(ts), 4
  {
    var l := ParseParams(ts, false, false);
    var ps, k := l.value.params, l.rest.rest;
    assert l.rest == Next(Sym(Arrow), k);
    if Closes(ts) {
      var d, commas := ParamsTidies(ts, false, false);
      var mid := Next(Sym(LPar), LooseParams(ps, commas, Next(Sym(RPar), l.rest)));
      c := Chain(Under(d), Next(Sym(LPar), ts), mid, ParamCommas(ps, commas, k),
                 Next(Sym(LPar), PrintParams(ps, Next(Sym(RPar), l.rest))));
    } else {
      assert l.rest == ts && ps == NoParams;
      c := CloseList(k);
    }
  }

  lemma {:induction false} FnTidies(ts: Tokens) returns (c: Tidying)
    requires ParseList(ParseParams(ts, false, false), 1 + Len(ts)).Ok?
    requires Starts(ParseParams(ts, false, false).rest, Arrow)
    ensures
      var r := ParseList(ParseParams(ts, false, false), 1 + Len(ts));
      Tidies(c, Next(Sym(LPar), ts), PrintType(r.value, r.rest))
    decreases Len(ts), 5
  {
    var l := ParseParams(ts, false, false);
    var ps, k := l.value.params, l.rest.rest;
    var ret := ParseType(k);
    var fn := Type(TypeFn(ps, ret.value, false), false);
    c := FnListTidies(ts);
    var d := TypeTidies(k);
    d := ReturnTidies(ps, d, k, ret.value, ret.rest);
    var w := WrapTidies(fn, ret.rest);
    c := Then(c, Next(Sym(LPar), PrintParams(ps, Next(Sym(RPar), l.rest))), Then(d, PrintType(fn, ret.rest), w));
  }

  lemma ReturnTidies(ps: Params, c: Tidying, ts: Tokens, ret: Type, k: Tokens) returns (d: Tidying)
    requires Tidies(c, ts, PrintType(ret, k))
    ensures Tidies(d, Next(Sym(LPar), PrintParams(ps, Next(Sym(RPar), Next(Sym(Arrow), ts)))),
                   PrintType(Type(TypeFn(ps, ret, false), false), k))
  {
    var after, after' := Next(Sym(RPar), Next(Sym(Arrow), ts)), Next(Sym(RPar), Next(Sym(Arrow), PrintType(ret, k)));
    d := LiftParams(ps, Under(Under(c)), after, after');
    d := Under(d);
    assert PrintType(Type(TypeFn(ps, ret, false), false), k) == Next(Sym(LPar), PrintParams(ps, after'));
  }
}
