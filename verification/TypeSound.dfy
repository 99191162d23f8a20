/** Every type the parser produces can be printed and read again. */
module TypeSound {
  import opened Prelude
  import opened Parsing
  import opened TypeSyntax
  import opened TypeRound

  lemma {:induction false} ParseTypeForms(ts: Tokens)
    requires ParseType(ts).Ok?
    ensures Formed(ParseType(ts).value) && Follows(ParseType(ts).value, ParseType(ts).rest)
    decreases Len(ts), 2
  {
    if ts.tok.Id? {
      WrapForms(Type(TypeId(ts.tok.name), false), ts.rest);
    } else if Starts(ts, LPar) {
      ListForms(ts.rest);
    } else {
      ParseTypeForms(ts.rest);
      var t, rest := ParseType(ts.rest).value, ParseType(ts.rest).rest;
      if Starts(ts, Async) {
        WrapForms(Type(TypeFn(t.body.params, t.body.ret, true), false), rest);
      } else {
        WrapForms(Type(TypeRef(t), false), rest);
      }
    }
  }

  lemma {:induction false} ListForms(ts: Tokens)
    requires ParseList(ParseParams(ts, false, false), 1 + Len(ts)).Ok?
    ensures
      var r := ParseList(ParseParams(ts, false, false), 1 + Len(ts));
      Formed(r.value) && Follows(r.value, r.rest)
    decreases Len(ts), 4
  {
    var l := ParseParams(ts, false, false);
    ParamsForm(ts, false, false);
    if Starts(l.rest, Arrow) {
      ParseTypeForms(l.rest.rest);
      var ret := ParseType(l.rest.rest);
      WrapForms(Type(TypeFn(l.value.params, ret.value, false), false), ret.rest);
    } else {
      WrapForms(Type(l.value.last.value.body, true), l.rest);
    }
  }

  lemma {:induction false} ParamsForm(ts: Tokens, isArgs: bool, more: bool)
    requires ParseParams(ts, isArgs, more).Ok?
    ensures
      var l := ParseParams(ts, isArgs, more).value;
      ParamsFormed(l.params) && (l.last.Some? ==> Formed(l.last.value))
    decreases Len(ts), 3
  {
    if !Starts(ts, RPar) {
      var head := ParseHead(ts);
      var t := ParseType(head.rest);
      if t.Ok? {
        ParseTypeForms(head.rest);
        var rest := SkipEllipsis(t.rest);
        ParamsForm(SkipComma(rest), isArgs || head.value.id.Some? || Starts(rest, Comma), true);
      }
    }
  }

  lemma {:induction false} WrapForms(t: Type, ts: Tokens)
    requires Formed(t) && (Closed(t) || !Extends(ts)) && (EndsPar(t) ==> !Starts(ts, Arrow))
    requires WrapType(t, ts).Ok?
    ensures Formed(WrapType(t, ts).value) && Follows(WrapType(t, ts).value, WrapType(t, ts).rest)
    decreases Len(ts), 4
  {
    if Starts(ts, Dot) {
      assert Len(ts) == 2 + Len(ts.rest.rest);
      WrapForms(Type(TypeMember(t, ts.rest.tok.name), false), ts.rest.rest);
    } else if Starts(ts, LBrack) {
      if Starts(ts.rest, RBrack) {
        assert Len(ts) == 2 + Len(ts.rest.rest);
        WrapForms(Type(TypeArray(t), false), ts.rest.rest);
      } else {
        var key := ParseType(ts.rest);
        WrapForms(Type(TypeMap(key.value, t), false), key.rest.rest);
      }
    } else if Starts(ts, Pipe) {
      ParseTypeForms(ts.rest);
      var sub := ParseType(ts.rest);
      SubTypesForm(sub.value);
      var subs := MoreTypes(t, SubTypes(sub.value));
      assert UnionFormed(subs) && LastEndsPar(subs) == EndsPar(sub.value);
      var union := Type(TypeUnion(subs), false);
      assert Formed(union) && EndsPar(union) == LastEndsPar(subs);
      WrapForms(union, sub.rest);
    } else if Starts(ts, Qn) {
      WrapForms(Type(TypeOptional(t), false), ts.rest);
    }
  }

  lemma SubTypesForm(t: Type)
    requires Formed(t)
    ensures SubTypes(t).MoreTypes? && UnionFormed(SubTypes(t)) && LastEndsPar(SubTypes(t)) == EndsPar(t)
  {
  }

  // parse(print(parse(ts))) == parse(ts), for every token list.
  lemma TypeParsePrintParse(ts: Tokens)
    requires ParseType(ts).Ok?
    ensures
      var r := ParseType(ts);
      ParseType(PrintType(r.value, r.rest)) == r
  {
    ParseTypeForms(ts);
    TypePrintParse(ParseType(ts).value, ParseType(ts).rest);
  }

  predicate Produces(ts: Tokens, t: Type) { ParseType(ts).Ok? && ParseType(ts).value == t }

  // The trees the parser can produce are exactly the formed ones.
  lemma ImageOfTypeParser(t: Type)
    ensures Formed(t) <==> exists ts :: Produces(ts, t)
  {
    if Formed(t) {
      TypePrintParse(t, Eof);
      assert Produces(PrintType(t, Eof), t);
    } else if ts :| Produces(ts, t) {
      ParseTypeForms(ts);
    }
  }

  // No two of them print alike.
  lemma OneTypePerTokenList(t: Type, t': Type, k: Tokens)
    requires Formed(t) && Formed(t') && Follows(t, k) && Follows(t', k) && PrintType(t, k) == PrintType(t', k)
    ensures t == t'
  {
    TypePrintParse(t, k);
    TypePrintParse(t', k);
  }

  // Without a comma and without an arrow, only the last type of a list is kept,
  // and it is kept without its dots: the tokens of the tree are then not the
  // ones consumed.
  lemma ListWithoutArrow(a: string, b: string)
    ensures
      var ts := Next(Sym(LPar), Next(Id(a), Next(Id(b), Next(Sym(Ellipsis), Next(Sym(RPar), Eof)))));
      ParseType(ts) == Ok(Type(TypeId(b), true), Eof)
  {
    var ts3 := Next(Sym(RPar), Eof);
    var ts2 := Next(Id(b), Next(Sym(Ellipsis), ts3));
    var ts1 := Next(Id(a), ts2);
    var x, y := Type(TypeId(a), false), Type(TypeId(b), false);
    assert ParseType(ts2) == Ok(y, Next(Sym(Ellipsis), ts3));
    assert ParseParams(ts3, false, true) == Ok(Listed(NoParams, None, false), Eof);
    assert ParseParams(ts2, false, true) == Ok(Listed(MoreParams(None, y, false, true, NoParams), Some(y), false), Eof);
    assert ParseType(ts1) == Ok(x, ts2);
    var l := ParseParams(ts1, false, false);
    assert l.Ok? && l.value.last == Some(y) && !l.value.isArgs && l.rest == Eof;
    assert ParseList(l, 1 + Len(ts1)) == WrapType(Type(TypeId(b), true), Eof);
  }
}
