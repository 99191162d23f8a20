/** Which token lists a type gives back exactly as they were read. */
module TypeExact {
  import opened Prelude
  import opened Parsing
  import opened TypeSyntax
  import opened TypeRound
  import opened TypeSound
  import opened TypeTokens

  // ----- On the tokens -----

  // Every list in front of an arrow is closed and has its commas between its
  // parameters; one without an arrow is a single type, without dots and not in
  // parentheses of its own; `async` stands in front of a plain function.
  predicate Neat(ts: Tokens)
    decreases Len(ts), 2
  {
    if !ts.Next? then true
    else if ts.tok.Id? then NeatSuffix(ts.rest)
    else if Starts(ts, LPar) then NeatList(ts.rest)
    else if Starts(ts, Async) then Starts(ts.rest, LPar) && ArrowFollows(ts.rest.rest) && Neat(ts.rest)
    else Starts(ts, Ref) ==> Neat(ts.rest)
  }

  predicate NeatSuffix(ts: Tokens)
    decreases Len(ts), 4
  {
    if Starts(ts, Dot) then ts.rest.Next? ==> NeatSuffix(ts.rest.rest)
    else if Starts(ts, LBrack) then
      if Starts(ts.rest, RBrack) then assert Len(ts) == 2 + Len(ts.rest.rest); NeatSuffix(ts.rest.rest)
      else
        Neat(ts.rest) &&
        var r := ParseType(ts.rest);
        r.Ok? && Starts(r.rest, RBrack) ==> NeatSuffix(r.rest.rest)
    else if Starts(ts, Pipe) then Neat(ts.rest)
    else Starts(ts, Qn) ==> NeatSuffix(ts.rest)
  }

  predicate NeatList(ts: Tokens)
    decreases Len(ts), 5
  {
    var l := ParseParams(ts, false, false);
    l.Ok? ==>
      if Starts(l.rest, Arrow) then Closes(ts) && NeatParams(ts) && Neat(l.rest.rest)
      else Single(ts) && Neat(ts) && NeatSuffix(l.rest)
  }

  // Behind an opening parenthesis: an arrow stands behind the closing one; one
  // type that is not in parentheses of its own is closed.
  predicate ArrowFollows(ts: Tokens) {
    var l := ParseParams(ts, false, false);
    l.Ok? && Starts(l.rest, Arrow)
  }

  predicate Single(ts: Tokens) {
    var r := ParseType(ts);
    r.Ok? && Starts(r.rest, RPar) && !Doubled(ts)
  }

  predicate Doubled(ts: Tokens) {
    Starts(ts, LPar) &&
    var l := ParseParams(ts.rest, false, false);
    l.Ok? && Starts(l.rest, RPar)
  }

  predicate NeatParams(ts: Tokens)
    decreases Len(ts), 3
  {
    Starts(ts, RPar) ||
    (ParseHead(ts).Ok? ==>
       var from := ParseHead(ts).rest;
       Neat(from) &&
       var t := ParseType(from);
       t.Ok? ==>
         var k := SkipEllipsis(t.rest);
         (if Starts(k, Comma) then !Starts(k.rest, RPar) else Starts(k, RPar)) && NeatParams(SkipComma(k)))
  }

  // ----- What is printed behind a type can be told from the whole -----

  lemma {:induction false} Cancel(t: Type, j: Tokens, k: Tokens)
    requires PrintType(t, j) == PrintType(t, k)
    ensures j == k
    decreases t, 0
  {
    if t.par {
      CancelBody(t.body, Next(Sym(RPar), j), Next(Sym(RPar), k));
    } else {
      CancelBody(t.body, j, k);
    }
  }

  lemma {:induction false} CancelBody(b: TypeBody, j: Tokens, k: Tokens)
    requires PrintTypeBody(b, j) == PrintTypeBody(b, k)
    ensures j == k
    decreases b, 1
  {
    match b
    case TypeId(_) =>
    case TypeMember(x, m) => Cancel(x, Next(Sym(Dot), Next(Id(m), j)), Next(Sym(Dot), Next(Id(m), k)));
    case TypeArray(x) => Cancel(x, Next(Sym(LBrack), Next(Sym(RBrack), j)), Next(Sym(LBrack), Next(Sym(RBrack), k)));
    case TypeMap(key, v) =>
      Cancel(v, Next(Sym(LBrack), PrintType(key, Next(Sym(RBrack), j))),
             Next(Sym(LBrack), PrintType(key, Next(Sym(RBrack), k))));
      Cancel(key, Next(Sym(RBrack), j), Next(Sym(RBrack), k));
    case TypeOptional(x) => Cancel(x, Next(Sym(Qn), j), Next(Sym(Qn), k));
    case TypeRef(x) => Cancel(x, j, k);
    case TypeUnion(subs) => CancelUnion(subs, j, k);
    case TypeFn(ps, ret, isAsync) =>
      CancelParams(ps, Next(Sym(RPar), Next(Sym(Arrow), PrintType(ret, j))),
                   Next(Sym(RPar), Next(Sym(Arrow), PrintType(ret, k))));
      Cancel(ret, j, k);
  }

  lemma {:induction false} CancelUnion(xs: Types, j: Tokens, k: Tokens)
    requires PrintUnion(xs, j) == PrintUnion(xs, k)
    ensures j == k
    decreases xs, 0
  {
    match xs
    case NoTypes =>
    case MoreTypes(x, NoTypes) => Cancel(x, j, k);
    case MoreTypes(x, MoreTypes(y, ys)) =>
      var others := MoreTypes(y, ys);
      Cancel(x, Next(Sym(Pipe), PrintUnion(others, j)), Next(Sym(Pipe), PrintUnion(others, k)));
      CancelUnion(others, j, k);
  }

  lemma {:induction false} CancelParams(ps: Params, j: Tokens, k: Tokens)
    requires PrintParams(ps, j) == PrintParams(ps, k)
    ensures j == k
    decreases ps, 0
  {
    match ps
    case NoParams =>
    case MoreParams(id, t, isMut, variadic, others) =>
      var j1 := if others.NoParams? then j else Next(Sym(Comma), PrintParams(others, j));
      var k1 := if others.NoParams? then k else Next(Sym(Comma), PrintParams(others, k));
      var j2 := if variadic then Next(Sym(Ellipsis), j1) else j1;
      var k2 := if variadic then Next(Sym(Ellipsis), k1) else k1;
      CancelHead(id, isMut, PrintType(t, j2), PrintType(t, k2));
      Cancel(t, j2, k2);
      if !others.NoParams? { CancelParams(others, j, k); }
  }

  lemma CancelHead(id: Option<string>, isMut: bool, j: Tokens, k: Tokens)
    requires PrintHead(id, isMut, j) == PrintHead(id, isMut, k)
    ensures j == k
  {
  }

  // A list that begins with the tokens of a type, read as that type, ends
  // where the type does.
  lemma ReadsPrinted(ts: Tokens, k: Tokens)
    requires ParseType(ts).Ok?
    requires ts == PrintType(ParseType(ts).value, k)
    requires !Extends(k) && !Starts(k, Arrow)
    ensures ParseType(ts).rest == k
  {
    ParseTypeForms(ts);
    TypePrintParse(ParseType(ts).value, k);
  }

  // What is read behind a type goes behind it.
  lemma {:induction false} SuffixIsBehind(t: Type, ts: Tokens) returns (k: Tokens)
    requires WrapType(t, ts).Ok?
    ensures PrintType(WrapType(t, ts).value, WrapType(t, ts).rest) == PrintType(t, k)
    decreases Len(ts)
  {
    if Starts(ts, Dot) {
      assert Len(ts) == 2 + Len(ts.rest.rest);
      k := SuffixIsBehind(Type(TypeMember(t, ts.rest.tok.name), false), ts.rest.rest);
      SuffixPrints(t, ts.rest.tok.name, t, k);
      k := Next(Sym(Dot), Next(Id(ts.rest.tok.name), k));
    } else if Starts(ts, LBrack) && Starts(ts.rest, RBrack) {
      assert Len(ts) == 2 + Len(ts.rest.rest);
      k := SuffixIsBehind(Type(TypeArray(t), false), ts.rest.rest);
      SuffixPrints(t, "", t, k);
      k := Next(Sym(LBrack), Next(Sym(RBrack), k));
    } else if Starts(ts, LBrack) {
      var key := ParseType(ts.rest);
      k := SuffixIsBehind(Type(TypeMap(key.value, t), false), key.rest.rest);
      SuffixPrints(t, "", key.value, k);
      k := Next(Sym(LBrack), PrintType(key.value, Next(Sym(RBrack), k)));
    } else if Starts(ts, Pipe) {
      var sub := ParseType(ts.rest);
      ParseTypeForms(ts.rest);
      k := SuffixIsBehind(Type(TypeUnion(MoreTypes(t, SubTypes(sub.value))), false), sub.rest);
      UnionPrints(t, sub.value, k);
      k := Next(Sym(Pipe), PrintType(sub.value, k));
    } else if Starts(ts, Qn) {
      k := SuffixIsBehind(Type(TypeOptional(t), false), ts.rest);
      SuffixPrints(t, "", t, k);
      k := Next(Sym(Qn), k);
    } else {
      k := ts;
    }
  }

  // ----- What the tokens behind a parenthesis or `async` tell -----

  // With anything read behind it, a type is neither a function nor in
  // parentheses.
  lemma {:induction false} NothingBehind(t: Type, ts: Tokens)
    requires WrapType(t, ts).Ok?
    ensures
      var r := WrapType(t, ts);
      r.value.par || r.value.body.TypeFn? ==> r == Ok(t, ts)
    decreases Len(ts)
  {
    if Starts(ts, Dot) {
      assert Len(ts) == 2 + Len(ts.rest.rest);
      NothingBehind(Type(TypeMember(t, ts.rest.tok.name), false), ts.rest.rest);
    } else if Starts(ts, LBrack) && Starts(ts.rest, RBrack) {
      assert Len(ts) == 2 + Len(ts.rest.rest);
      NothingBehind(Type(TypeArray(t), false), ts.rest.rest);
    } else if Starts(ts, LBrack) {
      var key := ParseType(ts.rest);
      NothingBehind(Type(TypeMap(key.value, t), false), key.rest.rest);
    } else if Starts(ts, Pipe) {
      var sub := ParseType(ts.rest);
      NothingBehind(Type(TypeUnion(MoreTypes(t, SubTypes(sub.value))), false), sub.rest);
    } else if Starts(ts, Qn) {
      NothingBehind(Type(TypeOptional(t), false), ts.rest);
    }
  }

  lemma PlainFnTokens(ts: Tokens)
    requires ParseType(ts).Ok? && ParseType(ts).value.body.TypeFn?
    ensures
      var t := ParseType(ts).value;
      !t.par && !t.body.isAsync <==> Starts(ts, LPar) && ArrowFollows(ts.rest)
  {
    if ts.tok.Id? {
      NothingBehind(Type(TypeId(ts.tok.name), false), ts.rest);
    } else if Starts(ts, LPar) {
      PlainListTokens(ts.rest);
    } else {
      var t := ParseType(ts.rest);
      if Starts(ts, Async) {
        NothingBehind(Type(TypeFn(t.value.body.params, t.value.body.ret, true), false), t.rest);
      } else {
        NothingBehind(Type(TypeRef(t.value), false), t.rest);
      }
    }
  }

  lemma PlainListTokens(ts: Tokens)
    requires ParseType(Next(Sym(LPar), ts)).Ok?
    ensures
      var r := ParseType(Next(Sym(LPar), ts));
      && (r.value.body.TypeFn? ==> (!r.value.par && !r.value.body.isAsync <==> ArrowFollows(ts)))
      && (Starts(r.rest, RPar) ==> (r.value.par <==> Doubled(Next(Sym(LPar), ts))))
  {
    var l := ParseParams(ts, false, false);
    if Starts(l.rest, Arrow) {
      var ret := ParseType(l.rest.rest);
      NothingBehind(Type(TypeFn(l.value.params, ret.value, false), false), ret.rest);
    } else {
      NothingBehind(Type(l.value.last.value.body, true), l.rest);
    }
  }

  lemma ParTokens(ts: Tokens)
    requires ParseType(ts).Ok? && Starts(ParseType(ts).rest, RPar)
    ensures ParseType(ts).value.par <==> Doubled(ts)
  {
    if ts.tok.Id? {
      NothingBehind(Type(TypeId(ts.tok.name), false), ts.rest);
    } else if Starts(ts, LPar) {
      PlainListTokens(ts.rest);
    } else {
      var t := ParseType(ts.rest);
      if Starts(ts, Async) {
        NothingBehind(Type(TypeFn(t.value.body.params, t.value.body.ret, true), false), t.rest);
      } else {
        NothingBehind(Type(TypeRef(t.value), false), t.rest);
      }
    }
  }

  // What `Single` says of the parameters read.
  predicate OneType(ps: Params) { ps.MoreParams? && ps.others.NoParams? && !ps.variadic && !ps.arg.par }

  // The first parameter of a list and what is read behind it.
  lemma FirstParam(ts: Tokens)
    requires ParseParams(ts, false, false).Ok? && ParseParams(ts, false, false).value.params.MoreParams?
    ensures !Starts(ts, RPar) && ParseHead(ts).Ok? && ParseType(ParseHead(ts).rest).Ok?
    ensures
      var l, head := ParseParams(ts, false, false), ParseHead(ts);
      var ps, t := l.value.params, ParseType(head.rest);
      var k := SkipEllipsis(t.rest);
      var others := ParseParams(SkipComma(k), head.value.id.Some? || Starts(k, Comma), true);
      && ps.arg == t.value && ps.variadic == Starts(t.rest, Ellipsis)
      && others.Ok? && ps.others == others.value.params && l.value.isArgs == others.value.isArgs
  {
  }

  lemma {:induction false} ArgsStay(ts: Tokens, more: bool)
    requires ParseParams(ts, true, more).Ok?
    ensures ParseParams(ts, true, more).value.isArgs
    decreases Len(ts)
  {
    if !Starts(ts, RPar) {
      var k := SkipEllipsis(ParseType(ParseHead(ts).rest).rest);
      ArgsStay(SkipComma(k), true);
    }
  }

  lemma NoMoreParams(ts: Tokens, isArgs: bool)
    requires ParseParams(ts, isArgs, true).Ok? && ParseParams(ts, isArgs, true).value.params.NoParams?
    ensures Starts(ts, RPar)
  {
  }

  lemma NoHead(ts: Tokens)
    requires ParseHead(ts).Ok? && ParseHead(ts).value.id.None?
    ensures ParseHead(ts) == Ok(Head(None, false), ts)
  {
  }

  lemma OneTypeIsRead(ts: Tokens)
    requires ParseParams(ts, false, false).Ok? && !ParseParams(ts, false, false).value.isArgs
    requires OneType(ParseParams(ts, false, false).value.params)
    ensures ParseType(ts).Ok? && Starts(ParseType(ts).rest, RPar)
  {
    FirstParam(ts);
    var head := ParseHead(ts);
    var k := ParseType(head.rest).rest;
    assert SkipEllipsis(k) == k;
    if head.value.id.Some? || Starts(k, Comma) { ArgsStay(SkipComma(k), true); }
    NoHead(ts);
    NoMoreParams(k, false);
  }

  lemma NotNamed(ts: Tokens)
    requires ParseType(ts).Ok? && Starts(ParseType(ts).rest, RPar)
    ensures !(ts.tok.Id? && Starts(ts.rest, Colon))
  {
  }

  // One type and the end of the list.
  lemma ReadAsOne(ts: Tokens)
    requires ParseType(ts).Ok? && Starts(ParseType(ts).rest, RPar)
    ensures
      var r := ParseType(ts);
      ParseParams(ts, false, false) ==
      Ok(Listed(MoreParams(None, r.value, false, false, NoParams), Some(r.value), false), r.rest.rest)
  {
    var r := ParseType(ts);
    assert !Starts(ts, RPar) && !Starts(ts, Mut);
    NotNamed(ts);
    assert ParseHead(ts) == Ok(Head(None, false), ts);
    assert SkipComma(SkipEllipsis(r.rest)) == r.rest;
    assert ParseParams(r.rest, false, true) == Ok(Listed(NoParams, None, false), r.rest.rest);
  }

  lemma SingleTokens(ts: Tokens)
    requires ParseParams(ts, false, false).Ok? && !ParseParams(ts, false, false).value.isArgs
    ensures OneType(ParseParams(ts, false, false).value.params) <==> Single(ts)
  {
    if OneType(ParseParams(ts, false, false).value.params) { OneTypeIsRead(ts); }
    if ParseType(ts).Ok? && Starts(ParseType(ts).rest, RPar) {
      ReadAsOne(ts);
      ParTokens(ts);
    }
  }

  // ----- Printing gives back the tokens if and only if they are neat -----

  lemma {:induction false} NeatSuffixes(t: Type, ts: Tokens)
    requires WrapType(t, ts).Ok?
    ensures
      var r := WrapType(t, ts);
      PrintType(t, ts) == PrintType(r.value, r.rest) <==> NeatSuffix(ts)
    decreases Len(ts), 4
  {
    if Starts(ts, Dot) {
      assert Len(ts) == 2 + Len(ts.rest.rest);
      SuffixPrints(t, ts.rest.tok.name, t, ts.rest.rest);
      NeatSuffixes(Type(TypeMember(t, ts.rest.tok.name), false), ts.rest.rest);
    } else if Starts(ts, LBrack) && Starts(ts.rest, RBrack) {
      assert Len(ts) == 2 + Len(ts.rest.rest);
      SuffixPrints(t, "", t, ts.rest.rest);
      NeatSuffixes(Type(TypeArray(t), false), ts.rest.rest);
    } else if Starts(ts, LBrack) {
      NeatKeys(t, ts);
    } else if Starts(ts, Pipe) {
      var sub := ParseType(ts.rest);
      ParseTypeForms(ts.rest);
      NeatTypes(ts.rest);
      UnionPrints(t, sub.value, sub.rest);
      if PrintType(t, ts) == PrintType(t, Next(Sym(Pipe), PrintType(sub.value, sub.rest))) {
        Cancel(t, ts, Next(Sym(Pipe), PrintType(sub.value, sub.rest)));
      }
    } else if Starts(ts, Qn) {
      SuffixPrints(t, "", t, ts.rest);
      NeatSuffixes(Type(TypeOptional(t), false), ts.rest);
    }
  }

  lemma {:induction false} NeatKeys(t: Type, ts: Tokens)
    requires WrapType(t, ts).Ok? && Starts(ts, LBrack) && !Starts(ts.rest, RBrack)
    ensures
      var r := WrapType(t, ts);
      PrintType(t, ts) == PrintType(r.value, r.rest) <==> NeatSuffix(ts)
    decreases Len(ts), 3
  {
    var from := ts.rest;
    var key := ParseType(from);
    var map' := Type(TypeMap(key.value, t), false);
    var r := WrapType(t, ts);
    NeatTypes(from);
    NeatSuffixes(map', key.rest.rest);
    SuffixPrints(t, "", key.value, key.rest.rest);
    if PrintType(t, ts) == PrintType(r.value, r.rest) {
      var k := SuffixIsBehind(map', key.rest.rest);
      SuffixPrints(t, "", key.value, k);
      Cancel(t, ts, Next(Sym(LBrack), PrintType(key.value, Next(Sym(RBrack), k))));
      ReadsPrinted(from, Next(Sym(RBrack), k));
    }
  }

  lemma {:induction false} NeatTypes(ts: Tokens)
    requires ParseType(ts).Ok?
    ensures ts == PrintType(ParseType(ts).value, ParseType(ts).rest) <==> Neat(ts)
    decreases Len(ts), 2
  {
    if ts.tok.Id? {
      assert ts == PrintType(Type(TypeId(ts.tok.name), false), ts.rest);
      NeatSuffixes(Type(TypeId(ts.tok.name), false), ts.rest);
    } else if Starts(ts, LPar) {
      NeatLists(ts.rest);
    } else {
      NeatTypes(ts.rest);
      ParseTypeForms(ts.rest);
      if Starts(ts, Async) { NeatAsync(ts.rest); }
    }
  }

  function PlainFn(t: Type): Type
    requires t.body.TypeFn?
  {
    Type(TypeFn(t.body.params, t.body.ret, false), false)
  }

  lemma AsyncReads(ts: Tokens)
    requires ParseType(Next(Sym(Async), ts)).Ok?
    ensures ParseType(ts).Ok? && ParseType(ts).value.body.TypeFn?
    ensures
      var t, r := ParseType(ts), ParseType(Next(Sym(Async), ts));
      r.rest == t.rest && PrintType(r.value, r.rest) == Next(Sym(Async), PrintType(PlainFn(t.value), t.rest))
  {
    var t := ParseType(ts);
    ParseTypeForms(ts);
    var fn := Type(TypeFn(t.value.body.params, t.value.body.ret, true), false);
    assert ParseType(Next(Sym(Async), ts)) == Ok(fn, t.rest);
    assert PrintTypeBody(fn.body, t.rest) == Next(Sym(Async), PrintTypeBody(PlainFn(t.value).body, t.rest));
  }

  lemma PlainIsRead(ts: Tokens)
    requires ParseType(Next(Sym(Async), ts)).Ok? && ParseType(ts).Ok? && ParseType(ts).value.body.TypeFn?
    requires ts == PrintType(PlainFn(ParseType(ts).value), ParseType(ts).rest)
    ensures ParseType(ts).value == PlainFn(ParseType(ts).value)
  {
    var t := ParseType(ts);
    var fn, plain := Type(TypeFn(t.value.body.params, t.value.body.ret, true), false), PlainFn(t.value);
    ParseTypeForms(ts);
    ParseTypeForms(Next(Sym(Async), ts));
    assert ParseType(Next(Sym(Async), ts)) == Ok(fn, t.rest);
    assert EndsPar(plain) ==> EndsPar(fn);
    TypePrintParse(plain, t.rest);
  }

  lemma NeatAsync(ts: Tokens)
    requires ParseType(Next(Sym(Async), ts)).Ok? && ParseType(ts).Ok?
    requires ts == PrintType(ParseType(ts).value, ParseType(ts).rest) <==> Neat(ts)
    ensures
      var r := ParseType(Next(Sym(Async), ts));
      Next(Sym(Async), ts) == PrintType(r.value, r.rest) <==> Starts(ts, LPar) && ArrowFollows(ts.rest) && Neat(ts)
  {
    AsyncReads(ts);
    PlainFnTokens(ts);
    if ts == PrintType(PlainFn(ParseType(ts).value), ParseType(ts).rest) { PlainIsRead(ts); }
  }

  // ----- Lists -----

  lemma {:induction false} NeatParamsPrint(ts: Tokens, isArgs: bool, more: bool)
    requires ParseParams(ts, isArgs, more).Ok? && Closes(ts) && NeatParams(ts)
    ensures
      var l := ParseParams(ts, isArgs, more);
      ts == PrintParams(l.value.params, Next(Sym(RPar), l.rest))
    decreases Len(ts), 3
  {
    if !Starts(ts, RPar) {
      var head, from := ParseHead(ts).value, ParseHead(ts).rest;
      var t := ParseType(from);
      var k := SkipEllipsis(t.rest);
      HeadPrints(ts);
      NeatTypes(from);
      NeatParamsPrint(SkipComma(k), isArgs || head.id.Some? || Starts(k, Comma), true);
    }
  }

  lemma {:induction false} PrintedParamsNeat(ts: Tokens, isArgs: bool, more: bool, k: Tokens)
    requires ParseParams(ts, isArgs, more).Ok? && Closes(ts)
    requires ts == PrintParams(ParseParams(ts, isArgs, more).value.params, Next(Sym(RPar), k))
    ensures NeatParams(ts) && ParseParams(ts, isArgs, more).rest == k
    decreases Len(ts), 3
  {
    if !Starts(ts, RPar) {
      var ps := ParseParams(ts, isArgs, more).value.params;
      var head, from := ParseHead(ts).value, ParseHead(ts).rest;
      var t := ParseType(from);
      var end := Next(Sym(RPar), k);
      var k1 := if ps.others.NoParams? then end else Next(Sym(Comma), PrintParams(ps.others, end));
      var k2 := if ps.variadic then Next(Sym(Ellipsis), k1) else k1;
      HeadPrints(ts);
      CancelHead(head.id, head.isMut, from, PrintType(t.value, k2));
      ReadsPrinted(from, k2);
      NeatTypes(from);
      assert SkipEllipsis(k2) == k1;
      PrintedParamsNeat(SkipComma(k1), isArgs || head.id.Some? || Starts(k1, Comma), true, k);
    }
  }

  lemma {:induction false} NeatLists(ts: Tokens)
    requires ParseList(ParseParams(ts, false, false), 1 + Len(ts)).Ok?
    ensures
      var r := ParseList(ParseParams(ts, false, false), 1 + Len(ts));
      Next(Sym(LPar), ts) == PrintType(r.value, r.rest) <==> NeatList(ts)
    decreases Len(ts), 5
  {
    var l := ParseParams(ts, false, false);
    if Starts(l.rest, Arrow) {
      NeatFns(ts);
    } else {
      var r := ParseList(l, 1 + Len(ts));
      SingleTokens(ts);
      if NeatList(ts) { NeatOnes(ts); }
      if Next(Sym(LPar), ts) == PrintType(r.value, r.rest) { PrintedOnesNeat(ts); }
    }
  }

  lemma {:induction false} NeatFns(ts: Tokens)
    requires ParseList(ParseParams(ts, false, false), 1 + Len(ts)).Ok?
    requires Starts(ParseParams(ts, false, false).rest, Arrow)
    ensures
      var r := ParseList(ParseParams(ts, false, false), 1 + Len(ts));
      Next(Sym(LPar), ts) == PrintType(r.value, r.rest) <==> NeatList(ts)
    decreases Len(ts), 4
  {
    var l := ParseParams(ts, false, false);
    var ps, k := l.value.params, l.rest.rest;
    var ret := ParseType(k);
    var fn := Type(TypeFn(ps, ret.value, false), false);
    ParseTypeForms(k);
    NeatTypes(k);
    assert ParseList(l, 1 + Len(ts)) == Ok(fn, ret.rest);
    var end := Next(Sym(Arrow), PrintType(ret.value, ret.rest));
    assert PrintTypeBody(fn.body, ret.rest) == Next(Sym(LPar), PrintParams(ps, Next(Sym(RPar), end)));
    if Closes(ts) {
      if NeatParams(ts) { NeatParamsPrint(ts, false, false); }
      if ts == PrintParams(ps, Next(Sym(RPar), end)) { PrintedParamsNeat(ts, false, false, end); }
    } else {
      assert l.rest == ts && ps == NoParams;
    }
  }

  // A list of one type and no arrow.
  lemma {:induction false} NeatOnes(ts: Tokens)
    requires ParseList(ParseParams(ts, false, false), 1 + Len(ts)).Ok?
    requires !Starts(ParseParams(ts, false, false).rest, Arrow)
    requires NeatList(ts)
    ensures
      var r := ParseList(ParseParams(ts, false, false), 1 + Len(ts));
      Next(Sym(LPar), ts) == PrintType(r.value, r.rest)
    decreases Len(ts), 4
  {
    var l := ParseParams(ts, false, false);
    var t := l.value.params.arg;
    SingleTokens(ts);
    assert Closes(ts) && !Starts(ts, RPar);
    var c, commas := ParamsTidies(ts, false, false);
    assert ParseHead(ts) == Ok(Head(None, false), ts);
    assert ParseType(ts) == Ok(t, Next(Sym(RPar), l.rest));
    NeatTypes(ts);
    NeatSuffixes(Type(t.body, true), l.rest);
  }

  lemma {:induction false} PrintedOnesNeat(ts: Tokens)
    requires ParseList(ParseParams(ts, false, false), 1 + Len(ts)).Ok?
    requires !Starts(ParseParams(ts, false, false).rest, Arrow)
    requires
      var r := ParseList(ParseParams(ts, false, false), 1 + Len(ts));
      Next(Sym(LPar), ts) == PrintType(r.value, r.rest)
    ensures NeatList(ts)
    decreases Len(ts), 4
  {
    var l := ParseParams(ts, false, false);
    ParamsForm(ts, false, false);
    var t := Type(l.value.last.value.body, false);
    var k := SuffixIsBehind(Type(t.body, true), l.rest);
    var end := Next(Sym(RPar), k);
    assert ts == PrintType(t, end);
    assert Formed(t);
    TypePrintParse(t, end);
    TypeStarts(t, end);
    assert ParseHead(ts) == Ok(Head(None, false), ts);
    assert ParseParams(end, false, true) == Ok(Listed(NoParams, None, false), k);
    assert l == Ok(Listed(MoreParams(None, t, false, false, NoParams), Some(t), false), k);
    SingleTokens(ts);
    NeatTypes(ts);
    NeatSuffixes(Type(t.body, true), l.rest);
  }
}
