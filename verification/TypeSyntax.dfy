/** Type trees, their printer and the type parser as functions. */
module TypeSyntax {
  import opened Prelude
  import opened Parsing

  datatype Type = Type(body: TypeBody, par: bool)

  datatype TypeBody =
    | TypeId(name: string)
    | TypeMember(obj: Type, member: string)
    | TypeArray(elem: Type)
    | TypeMap(key: Type, value: Type)
    | TypeOptional(arg: Type)
    | TypeRef(arg: Type)
    | TypeUnion(subs: Types)
    | TypeFn(params: Params, ret: Type, isAsync: bool)

  datatype Types = NoTypes | MoreTypes(first: Type, others: Types)

  datatype Params = NoParams | MoreParams(id: Option<string>, arg: Type, isMut: bool, variadic: bool, others: Params)

  // ----- ParserType::stringify, as tokens in front of `k` -----

  function PrintType(t: Type, k: Tokens): Tokens
    decreases t, 0
  {
    if t.par then Next(Sym(LPar), PrintTypeBody(t.body, Next(Sym(RPar), k))) else PrintTypeBody(t.body, k)
  }

  function PrintTypeBody(b: TypeBody, k: Tokens): Tokens
    decreases b, 1
  {
    match b
    case TypeId(x) => Next(Id(x), k)
    case TypeMember(x, m) => PrintType(x, Next(Sym(Dot), Next(Id(m), k)))
    case TypeArray(x) => PrintType(x, Next(Sym(LBrack), Next(Sym(RBrack), k)))
    case TypeMap(key, v) => PrintType(v, Next(Sym(LBrack), PrintType(key, Next(Sym(RBrack), k))))
    case TypeOptional(x) => PrintType(x, Next(Sym(Qn), k))
    case TypeRef(x) => Next(Sym(Ref), PrintType(x, k))
    case TypeUnion(subs) => PrintUnion(subs, k)
    case TypeFn(ps, ret, isAsync) =>
      var fn := Next(Sym(LPar), PrintParams(ps, Next(Sym(RPar), Next(Sym(Arrow), PrintType(ret, k)))));
      if isAsync then Next(Sym(Async), fn) else fn
  }

  function PrintUnion(ts: Types, k: Tokens): Tokens
    decreases ts, 0
  {
    match ts
    case NoTypes => k
    case MoreTypes(t, NoTypes) => PrintType(t, k)
    case MoreTypes(t, others) => PrintType(t, Next(Sym(Pipe), PrintUnion(others, k)))
  }

  function PrintParams(ps: Params, k: Tokens): Tokens
    decreases ps, 0
  {
    match ps
    case NoParams => k
    case MoreParams(id, t, isMut, variadic, others) =>
      var k1 := if others.NoParams? then k else Next(Sym(Comma), PrintParams(others, k));
      PrintHead(id, isMut, PrintType(t, if variadic then Next(Sym(Ellipsis), k1) else k1))
  }

  function PrintHead(id: Option<string>, isMut: bool, k: Tokens): Tokens {
    var k1 := if id.Some? then Next(Id(id.value), Next(Sym(Colon), k)) else k;
    if isMut then Next(Sym(Mut), k1) else k1
  }

  // ----- Reading -----

  // The name in front of a parameter's type, and whether it is `mut`.
  datatype Head = Head(id: Option<string>, isMut: bool)

  function ParseHead(ts: Tokens): (r: Result<Head>)
    ensures !r.Null? && (r.Ok? ==> Len(r.rest) <= Len(ts))
  {
    if Starts(ts, Mut) then
      var ts1 := ts.rest;
      if !ts1.Next? || !ts1.tok.Id? then Fail(E0145)
      else if !Starts(ts1.rest, Colon) then Fail(E0146)
      else assert Len(ts1) == 2 + Len(ts1.rest.rest); Ok(Head(Some(ts1.tok.name), true), ts1.rest.rest)
    else if ts.Next? && ts.tok.Id? && Starts(ts.rest, Colon) then
      assert Len(ts) == 2 + Len(ts.rest.rest); Ok(Head(Some(ts.tok.name), false), ts.rest.rest)
    else Ok(Head(None, false), ts)
  }

  function SkipEllipsis(ts: Tokens): (r: Tokens)
    ensures Len(r) <= Len(ts)
  {
    if Starts(ts, Ellipsis) then ts.rest else ts
  }

  // A parenthesised list: `last` is its last type, and `isArgs` says that only
  // the parameters of a function can look like that.
  datatype Listed = Listed(params: Params, last: Option<Type>, isArgs: bool)

  // `_type`.
  function ParseType(ts: Tokens): (r: Result<Type>)
    ensures r.Ok? ==> ts.Next? && Len(r.rest) < Len(ts)
    decreases Len(ts), 2
  {
    if !ts.Next? then Null
    else if ts.tok.Id? then WrapType(Type(TypeId(ts.tok.name), false), ts.rest)
    else if Starts(ts, LPar) then ParseList(ParseParams(ts.rest, false, false), Len(ts))
    else if Starts(ts, Async) then
      match ParseType(ts.rest)
      case Ok(t, rest) =>
        if t.body.TypeFn? then WrapType(Type(TypeFn(t.body.params, t.body.ret, true), false), rest) else Fail(E0180)
      case Null => Fail(E0180)
      case Fail(err) => Fail(err)
    else if Starts(ts, Ref) then
      match ParseType(ts.rest)
      case Ok(t, rest) => WrapType(Type(TypeRef(t), false), rest)
      case Null => Fail(E0149)
      case Fail(err) => Fail(err)
    else Null
  }

  // What the list was: parameters if an arrow follows, else one type in
  // parentheses.  `limit` bounds the tokens left.
  function ParseList(l: Result<Listed>, limit: nat): (r: Result<Type>)
    requires l.Ok? ==> Len(l.rest) < limit
    ensures r.Ok? ==> Len(r.rest) < limit
    decreases limit, 1
  {
    match l
    case Null => Null
    case Fail(err) => Fail(err)
    case Ok(listed, rest) =>
      if Starts(rest, Arrow) then
        match ParseType(rest.rest)
        case Ok(ret, rest1) => WrapType(Type(TypeFn(listed.params, ret, false), false), rest1)
        case Null => Fail(E0120)
        case Fail(err) => Fail(err)
      else if listed.isArgs then Fail(E0153)
      else if listed.last.None? then Null
      else WrapType(Type(listed.last.value.body, true), rest)
  }

  // `more` says that a parameter came before.
  function ParseParams(ts: Tokens, isArgs: bool, more: bool): (r: Result<Listed>)
    ensures !r.Null? && (r.Ok? ==> Len(r.rest) <= Len(ts))
    decreases Len(ts), 3
  {
    if Starts(ts, RPar) then Ok(Listed(NoParams, None, isArgs), ts.rest)
    else
      match ParseHead(ts)
      case Null => Fail(E0118)
      case Fail(err) => Fail(err)
      case Ok(head, from) =>
        match ParseType(from)
        case Fail(err) => Fail(err)
        case Null =>
          if isArgs || head.id.Some? then Fail(E0118)
          else if more then Fail(E0127)
          else Ok(Listed(NoParams, None, false), ts)
        case Ok(t, rest) =>
          var rest1 := SkipEllipsis(rest);
          match ParseParams(SkipComma(rest1), isArgs || head.id.Some? || Starts(rest1, Comma), true)
          case Null => Fail(E0118)
          case Fail(err) => Fail(err)
          case Ok(l, rest2) =>
            var last := if l.last.None? then Some(t) else l.last;
            Ok(Listed(MoreParams(head.id, t, head.isMut, Starts(rest, Ellipsis), l.params), last, l.isArgs), rest2)
  }

  // `_wrapType`.
  function WrapType(t: Type, ts: Tokens): (r: Result<Type>)
    ensures !r.Null? && (r.Ok? ==> Len(r.rest) <= Len(ts))
    decreases Len(ts), 4
  {
    if Starts(ts, Dot) then
      if !t.body.TypeId? && !t.body.TypeMember? then Fail(E0191)
      else if !ts.rest.Next? || !ts.rest.tok.Id? then Fail(E0192)
      else assert Len(ts) == 2 + Len(ts.rest.rest);
           WrapType(Type(TypeMember(t, ts.rest.tok.name), false), ts.rest.rest)
    else if Starts(ts, LBrack) then
      if Starts(ts.rest, RBrack) then
        assert Len(ts) == 2 + Len(ts.rest.rest);
        WrapType(Type(TypeArray(t), false), ts.rest.rest)
      else
        match ParseType(ts.rest)
        case Null => Fail(E0151)
        case Fail(err) => Fail(err)
        case Ok(key, rest) =>
          if !key.body.TypeId? then Fail(E0171)
          else if !Starts(rest, RBrack) then Fail(E0172)
          else WrapType(Type(TypeMap(key, t), false), rest.rest)
    else if Starts(ts, Pipe) then
      match ParseType(ts.rest)
      case Null => Fail(E0163)
      case Fail(err) => Fail(err)
      case Ok(sub, rest) => WrapType(Type(TypeUnion(MoreTypes(t, SubTypes(sub))), false), rest)
    else if Starts(ts, Qn) then WrapType(Type(TypeOptional(t), false), ts.rest)
    else Ok(t, ts)
  }

  // A union on the right adds its members.
  function SubTypes(t: Type): Types {
    if t.body.TypeUnion? && !t.par then t.body.subs else MoreTypes(t, NoTypes)
  }
}
