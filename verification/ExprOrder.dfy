/** How operators group, said of the tokens and without the operator tables. */
module ExprOrder {
  import opened Prelude
  import opened Parsing
  import opened ExprSyntax
  import opened ExprSpec
  import opened ExprShape
  import opened ExprRound
  import opened ExprSound
  import opened ExprAccept
  import opened ExprJoins
  import opened ExprValue
  import opened ExprGrammar

  // What can stand behind an expression: nothing that continues it.
  predicate Stops(k: Tokens) {
    k.Next? && k.tok.Sym? ==>
      var op := k.tok.op;
      && (forall i: nat {:trigger Class(i)} | i < CLASSES :: op !in Class(i))
      && op !in AssignOps() && op !in StepOps() && op !in {Dot, LBrack, LPar, Qn, LBrace, As, Is}
  }

  lemma StopsIsEnds(k: Tokens)
    ensures Stops(k) <==> Ends(k)
  {
    if k.Next? && k.tok.Sym? {
      var op := k.tok.op;
      OtherOps(op);
      forall i: nat | i < CLASSES ensures op in Class(i) ==> IsBinary(op) { ClassOf(op, i); }
      if IsBinary(op) { var i := ClassNumber(op); }
    }
  }

  // The trees that the parser builds when it joins no literals are exactly the
  // trees of the grammar.
  lemma GrammarOfParser(e: Expr)
    ensures At(e, WHOLE) <==> exists ts :: Builds(ts, e, false)
  {
    AtByTables(e, WHOLE);
    ImageOfParser(e, false);
  }

  // The parser reads the tokens of a tree of the grammar as that tree: always
  // without joining literals, and as the source runs it where there are none to
  // join.
  lemma GrammarIsRead(e: Expr, k: Tokens)
    requires At(e, WHOLE) && Stops(k)
    ensures ParseExpr(Print(e, k), false) == Ok(e, k)
    ensures NoJoin(Print(e, k)) <==> ParseExpr(Print(e, k), true) == Ok(e, k)
    ensures NoStrings(e) ==> ParseExpr(Print(e, k), true) == Ok(e, k)
  {
    AtByTables(e, WHOLE);
    if NoStrings(e) {
      WithoutStrings(e);
      StopsIsEnds(k);
      PrintParse(e, k, true);
    }
    StopsIsEnds(k);
    PrintParse(e, k, false);
    ExprAlike(Print(e, k));
    RegroupingDoesNothing(Print(e, k));
  }

  // ----- Trees without string literals -----

  predicate NoStrings(e: Expr)
    decreases e
  {
    match e.body
    case Name(_) => true
    case DotName(_) => true
    case Literal(_) => true
    case StrLit(_) => false
    case Prop(x, _) => NoStrings(x)
    case Index(x, y) => NoStrings(x) && NoStrings(y)
    case Array(xs) => NoStringsIn(xs)
    case AwaitOf(x) => NoStrings(x)
    case Prefix(_, x) => NoStrings(x)
    case Postfix(x, _) => NoStrings(x)
    case Binary(x, _, y) => NoStrings(x) && NoStrings(y)
    case Assign(x, _, y) => NoStrings(x) && NoStrings(y)
    case Cond(x, y, z) => NoStrings(x) && NoStrings(y) && NoStrings(z)
    case Call(x, args) => NoStrings(x) && NoStringsInArgs(args)
  }

  predicate NoStringsIn(xs: Exprs)
    decreases xs
  {
    match xs
    case NoExprs => true
    case MoreExprs(x, others) => NoStrings(x) && NoStringsIn(others)
  }

  predicate NoStringsInArgs(xs: Args)
    decreases xs
  {
    match xs
    case NoArgs => true
    case MoreArgs(_, x, others) => NoStrings(x) && NoStringsInArgs(others)
  }

  lemma {:induction false} WithoutStrings(e: Expr)
    requires NoStrings(e) && Obeys(e, false)
    ensures Obeys(e, true)
    decreases e
  {
    match e.body
    case Name(_) =>
    case DotName(_) =>
    case Literal(_) =>
    case Prop(x, _) => WithoutStrings(x);
    case Index(x, y) => WithoutStrings(x); WithoutStrings(y);
    case Array(xs) => WithoutStringsIn(xs);
    case AwaitOf(x) => WithoutStrings(x);
    case Prefix(_, x) => WithoutStrings(x);
    case Postfix(x, _) => WithoutStrings(x);
    case Binary(x, op, y) =>
      WithoutStrings(x);
      WithoutStrings(y);
      NoneToJoin(x, op, First(y));
    case Assign(x, _, y) => WithoutStrings(x); WithoutStrings(y);
    case Cond(x, y, z) => WithoutStrings(x); WithoutStrings(y); WithoutStrings(z);
    case Call(x, args) => WithoutStrings(x); WithoutStringsInArgs(args);
  }

  lemma NoneToJoin(x: Expr, op: Op, y: Expr)
    requires NoStrings(x)
    ensures !Joins(x, op, y)
  {
  }

  lemma {:induction false} WithoutStringsIn(xs: Exprs)
    requires NoStringsIn(xs) && ObeyAll(xs, false)
    ensures ObeyAll(xs, true)
    decreases xs
  {
    match xs
    case NoExprs =>
    case MoreExprs(x, others) => WithoutStrings(x); WithoutStringsIn(others);
  }

  lemma {:induction false} WithoutStringsInArgs(xs: Args)
    requires NoStringsInArgs(xs) && ObeyArgs(xs, false)
    ensures ObeyArgs(xs, true)
    decreases xs
  {
    match xs
    case NoArgs =>
    case MoreArgs(_, x, others) => WithoutStrings(x); WithoutStringsInArgs(others);
  }

  // ----- Pairs of operators -----

  // As which tree the tokens are read.
  predicate Reads(ts: Tokens, e: Expr, k: Tokens) {
    && ParseExpr(ts, false) == Ok(e, k)
    && (NoJoin(ts) ==> ParseExpr(ts, true) == Ok(e, k))
  }

  lemma ReadsGrammar(ts: Tokens, e: Expr, k: Tokens)
    requires ts == Print(e, k) && At(e, WHOLE) && Stops(k)
    ensures Reads(ts, e, k)
  {
    GrammarIsRead(e, k);
  }

  function Bin(x: Expr, op: Op, y: Expr): Expr { Expr(Binary(x, op, y), false) }

  function Pre(op: Op, x: Expr): Expr { Expr(if op == Await then AwaitOf(x) else Prefix(op, x), false) }

  // The tokens of `x`, an operator, and `k`.
  function Ahead(x: Expr, op: Op, k: Tokens): Tokens { Print(x, Next(Sym(op), k)) }

  lemma AtHigher(e: Expr, n: nat, m: nat)
    requires At(e, n) && STEPPED <= n <= m <= WHOLE
    ensures At(e, m)
  {
    AtByTables(e, n);
    AtByTables(e, m);
  }

  lemma BinAt(x: Expr, op: Op, y: Expr, i: nat, n: nat)
    requires i < CLASSES && op in Class(i) && BINARY + i <= n <= WHOLE
    requires At(x, BINARY + i) && At(y, BINARY + i - 1)
    ensures At(Bin(x, op, y), n)
  {
    assert AtBody(Binary(x, op, y), BINARY + i);
    AtHigher(Bin(x, op, y), BINARY + i, n);
  }

  lemma PairAt(x: Expr, op: Op, y: Expr, i: nat, n: nat)
    requires i < CLASSES && op in Class(i) && BINARY + i <= n <= WHOLE && At(x, PREFIXED) && At(y, PREFIXED)
    ensures At(Bin(x, op, y), n)
  {
    AtHigher(x, PREFIXED, BINARY + i);
    AtHigher(y, PREFIXED, BINARY + i - 1);
    BinAt(x, op, y, i, n);
  }

  // `x p y q z`: of two operators the one that binds tighter comes first, and of
  // two that bind alike the left one.
  lemma BinaryPairs(x: Expr, p: Op, y: Expr, q: Op, z: Expr, k: Tokens, i: nat, j: nat)
    requires At(x, PREFIXED) && At(y, PREFIXED) && At(z, PREFIXED) && Stops(k)
    requires i < CLASSES && j < CLASSES && p in Class(i) && q in Class(j)
    ensures
      Reads(Ahead(x, p, Ahead(y, q, Print(z, k))),
            if i <= j then Bin(Bin(x, p, y), q, z) else Bin(x, p, Bin(y, q, z)), k)
  {
    if i <= j { LeftPair(x, p, y, q, z, k, i, j); } else { RightPair(x, p, y, q, z, k, i, j); }
  }

  lemma LeftPair(x: Expr, p: Op, y: Expr, q: Op, z: Expr, k: Tokens, i: nat, j: nat)
    requires At(x, PREFIXED) && At(y, PREFIXED) && At(z, PREFIXED) && Stops(k)
    requires i <= j < CLASSES && p in Class(i) && q in Class(j)
    ensures Reads(Ahead(x, p, Ahead(y, q, Print(z, k))), Bin(Bin(x, p, y), q, z), k)
  {
    PairAt(x, p, y, i, BINARY + j);
    AtHigher(z, PREFIXED, BINARY + j - 1);
    BinAt(Bin(x, p, y), q, z, j, WHOLE);
    PrintBin(x, p, y, Next(Sym(q), Print(z, k)));
    PrintBin(Bin(x, p, y), q, z, k);
    ReadsGrammar(Ahead(x, p, Ahead(y, q, Print(z, k))), Bin(Bin(x, p, y), q, z), k);
  }

  lemma RightPair(x: Expr, p: Op, y: Expr, q: Op, z: Expr, k: Tokens, i: nat, j: nat)
    requires At(x, PREFIXED) && At(y, PREFIXED) && At(z, PREFIXED) && Stops(k)
    requires j < i < CLASSES && p in Class(i) && q in Class(j)
    ensures Reads(Ahead(x, p, Ahead(y, q, Print(z, k))), Bin(x, p, Bin(y, q, z)), k)
  {
    PairAt(y, q, z, j, BINARY + i - 1);
    AtHigher(x, PREFIXED, BINARY + i);
    BinAt(x, p, Bin(y, q, z), i, WHOLE);
    PrintBin(y, q, z, k);
    PrintBin(x, p, Bin(y, q, z), k);
    ReadsGrammar(Ahead(x, p, Ahead(y, q, Print(z, k))), Bin(x, p, Bin(y, q, z)), k);
  }

  lemma PrintBin(x: Expr, op: Op, y: Expr, k: Tokens)
    ensures Print(Bin(x, op, y), k) == Ahead(x, op, Print(y, k))
  {
  }

  // The same of names, however the parser is run.
  lemma NamePairs(a: string, p: Op, b: string, q: Op, c: string, g: bool, i: nat, j: nat)
    requires i < CLASSES && j < CLASSES && p in Class(i) && q in Class(j)
    ensures
      var x, y, z := Expr(Name(a), false), Expr(Name(b), false), Expr(Name(c), false);
      ParseExpr(Next(Id(a), Next(Sym(p), Next(Id(b), Next(Sym(q), Next(Id(c), Eof))))), g) ==
      Ok(if i <= j then Bin(Bin(x, p, y), q, z) else Bin(x, p, Bin(y, q, z)), Eof)
  {
    var x, y, z := Expr(Name(a), false), Expr(Name(b), false), Expr(Name(c), false);
    BinaryPairs(x, p, y, q, z, Eof, i, j);
    PrintsNames(a, p, b, q, c);
    var e := if i <= j then Bin(Bin(x, p, y), q, z) else Bin(x, p, Bin(y, q, z));
    NoStringsInNames(a, p, b, q, c);
    if i <= j {
      PrintBin(x, p, y, Next(Sym(q), Print(z, Eof)));
      PrintBin(Bin(x, p, y), q, z, Eof);
    } else {
      PrintBin(y, q, z, Eof);
      PrintBin(x, p, Bin(y, q, z), Eof);
    }
    ReadsEitherWay(Ahead(x, p, Ahead(y, q, Print(z, Eof))), e, Eof);
  }

  lemma PrintsNames(a: string, p: Op, b: string, q: Op, c: string)
    ensures
      var x, y, z := Expr(Name(a), false), Expr(Name(b), false), Expr(Name(c), false);
      Ahead(x, p, Ahead(y, q, Print(z, Eof))) ==
      Next(Id(a), Next(Sym(p), Next(Id(b), Next(Sym(q), Next(Id(c), Eof)))))
  {
    PrintName(c, Eof);
    PrintName(b, Next(Sym(q), Next(Id(c), Eof)));
    PrintName(a, Next(Sym(p), Next(Id(b), Next(Sym(q), Next(Id(c), Eof)))));
  }

  lemma PrintName(a: string, k: Tokens)
    ensures Print(Expr(Name(a), false), k) == Next(Id(a), k)
  {
  }

  lemma NoStringsInNames(a: string, p: Op, b: string, q: Op, c: string)
    ensures
      var x, y, z := Expr(Name(a), false), Expr(Name(b), false), Expr(Name(c), false);
      NoStrings(Bin(Bin(x, p, y), q, z)) && NoStrings(Bin(x, p, Bin(y, q, z)))
  {
    var x, y, z := Expr(Name(a), false), Expr(Name(b), false), Expr(Name(c), false);
    assert NoStrings(x) && NoStrings(y) && NoStrings(z);
    assert NoStrings(Bin(x, p, y)) && NoStrings(Bin(y, q, z));
  }

  lemma ReadsEitherWay(ts: Tokens, e: Expr, k: Tokens)
    requires ParseExpr(ts, false) == Ok(e, k) && NoStrings(e) && ts == Print(e, k)
    ensures ParseExpr(ts, true) == Ok(e, k)
  {
    ParseExprObeys(ts, false);
    WithoutStrings(e);
    WrapAllEnds(ParseOperand(ts, false).value, ParseOperand(ts, false).rest, false);
    PrintParse(e, k, true);
  }

  // Behind an assignment operator stands a whole expression: assignments group
  // to the right and are looser than all binary operators.
  lemma AssignTakesAll(x: Expr, op: Op, y: Expr, k: Tokens)
    requires op in AssignOps() && Access(x) && At(x, STEPPED) && At(y, WHOLE) && Stops(k)
    ensures Reads(Ahead(x, op, Print(y, k)), Expr(Assign(x, op, y), false), k)
  {
    ReadsGrammar(Ahead(x, op, Print(y, k)), Expr(Assign(x, op, y), false), k);
  }

  // In front of a question mark stands everything but an assignment or another
  // conditional, and behind the colon a whole expression.
  lemma CondTakesAll(x: Expr, y: Expr, z: Expr, k: Tokens)
    requires At(x, BINARY + CLASSES - 1) && At(y, WHOLE) && At(z, WHOLE) && Stops(k)
    ensures Reads(Ahead(x, Qn, Ahead(y, Colon, Print(z, k))), Expr(Cond(x, y, z), false), k)
  {
    ReadsGrammar(Ahead(x, Qn, Ahead(y, Colon, Print(z, k))), Expr(Cond(x, y, z), false), k);
  }

  // A prefix operator is tighter than all binary ones,
  lemma PrefixThenBinary(op: Op, x: Expr, q: Op, y: Expr, k: Tokens, j: nat)
    requires op in SignOps() || op == Await
    requires At(x, PREFIXED) && At(y, PREFIXED) && j < CLASSES && q in Class(j) && Stops(k)
    ensures Reads(Next(Sym(op), Ahead(x, q, Print(y, k))), Bin(Pre(op, x), q, y), k)
  {
    PreAt(op, x);
    PairAt(Pre(op, x), q, y, j, WHOLE);
    PrintPre(op, x, Next(Sym(q), Print(y, k)));
    PrintBin(Pre(op, x), q, y, k);
    ReadsGrammar(Next(Sym(op), Ahead(x, q, Print(y, k))), Bin(Pre(op, x), q, y), k);
  }

  lemma PreAt(op: Op, x: Expr)
    requires (op in SignOps() || op == Await) && At(x, PREFIXED)
    ensures At(Pre(op, x), PREFIXED) && At(Pre(op, x), WHOLE)
  {
    assert AtBody(Pre(op, x).body, PREFIXED);
    AtHigher(Pre(op, x), PREFIXED, WHOLE);
  }

  lemma PrintPre(op: Op, x: Expr, k: Tokens)
    ensures Print(Pre(op, x), k) == Next(Sym(op), Print(x, k))
  {
  }

  // and takes what stands directly behind its operand.
  lemma PrefixThenSuffix(op: Op, x: Expr, p: string, y: Expr, args: Args, k: Tokens)
    requires op in SignOps() || op == Await
    requires At(x, STEPPED) && At(y, WHOLE) && ArgsAt(args) && Stops(k)
    ensures Reads(Next(Sym(op), Ahead(x, Dot, Next(Id(p), k))), Pre(op, Expr(Prop(x, p), false)), k)
    ensures
      Reads(Next(Sym(op), Ahead(x, LBrack, Ahead(y, RBrack, k))), Pre(op, Expr(Index(x, y), false)), k)
    ensures
      Reads(Next(Sym(op), Ahead(x, LPar, PrintArgs(args, Next(Sym(RPar), k)))), Pre(op, Expr(Call(x, args), false)), k)
  {
    PreIsRead(op, Expr(Prop(x, p), false), Ahead(x, Dot, Next(Id(p), k)), k);
    PreIsRead(op, Expr(Index(x, y), false), Ahead(x, LBrack, Ahead(y, RBrack, k)), k);
    PreIsRead(op, Expr(Call(x, args), false), Ahead(x, LPar, PrintArgs(args, Next(Sym(RPar), k))), k);
  }

  lemma PreIsRead(op: Op, x: Expr, ts: Tokens, k: Tokens)
    requires (op in SignOps() || op == Await) && At(x, STEPPED) && ts == Print(x, k) && Stops(k)
    ensures Reads(Next(Sym(op), ts), Pre(op, x), k)
  {
    AtHigher(x, STEPPED, PREFIXED);
    PreAt(op, x);
    PrintPre(op, x, k);
    ReadsGrammar(Next(Sym(op), ts), Pre(op, x), k);
  }

  // ----- What is refused -----

  // An assignment to anything but an access.
  lemma NoAssignment(x: Expr, op: Op, y: Expr, k: Tokens, g: bool)
    requires Obeys(x, g) && At(x, BINARY + CLASSES - 1) && !Access(x) && op in AssignOps()
    requires Obeys(y, g)
    ensures ParseExpr(Ahead(x, op, Print(y, k)), g) == Fail(E0140)
  {
    var ts := Next(Sym(op), Print(y, k));
    OtherOps(op);
    AssignKind(op);
    AtByTables(x, BINARY + CLASSES - 1);
    DescendsByLevel(x, 2);
    OperandReads(y, k, g);
    InfixReads(op, Print(y, k), First(y), Tail(y, k), g);
    Arrives(x, ts, g);
  }

  // `++` and `--` behind anything but an access.
  lemma NoStep(x: Expr, op: Op, k: Tokens, g: bool)
    requires Obeys(x, g) && At(x, STEPPED) && !Access(x) && op in StepOps()
    ensures ParseExpr(Ahead(x, op, k), g) == Fail(E0142)
  {
    OtherOps(op);
    AtByTables(x, STEPPED);
    Arrives(x, Next(Sym(op), k), g);
  }

  lemma Arrives(x: Expr, k: Tokens, g: bool)
    requires Obeys(x, g)
    ensures ParseExpr(Print(x, k), g) == WrapAll(x, k, g)
  {
    OperandReads(x, k, g);
    TightAnyhow(x, 0);
    ExprRound.Reaches(x, k, 0, g);
    StepsWrap(First(x), Tail(x, k), x, k, 0, g);
  }
}
