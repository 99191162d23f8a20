/** Printing and parsing: a tree that obeys the tables is what the parser reads
    back from the tree's own tokens. */
module ExprRound {
  import opened Prelude
  import opened Parsing
  import opened ExprSyntax
  import opened ExprSpec
  import opened ExprShape

  lemma {:induction false} TightAnyhow(e: Expr, lo: int)
    requires lo <= 1
    ensures Tight(e, lo)
    decreases e
  {
    if e.par { return; }
    match e.body
    case Prop(x, _) => TightAnyhow(x, lo);
    case Index(x, _) => TightAnyhow(x, lo);
    case Call(x, _) => TightAnyhow(x, lo);
    case Postfix(x, _) => TightAnyhow(x, lo);
    case Binary(x, _, y) => TightAnyhow(x, lo); TightAnyhow(y, lo);
    case Assign(x, _, y) => TightAnyhow(x, lo); TightAnyhow(y, lo);
    case Cond(x, _, z) => TightAnyhow(x, lo); TightAnyhow(z, lo);
    case AwaitOf(x) => TightAnyhow(x, lo);
    case Prefix(_, x) => TightAnyhow(x, lo);
    case _ =>
  }

  lemma {:induction false} TailKeepsColonAway(e: Expr, k: Tokens, g: bool)
    requires Obeys(e, g) && !Starts(k, Colon)
    ensures !Starts(Tail(e, k), Colon)
    decreases e.body
  {
    if HasLeft(e) {
      TailKeepsColonAway(Left(e), After(e, k), g);
    } else if !e.par && (e.body.Prefix? || e.body.AwaitOf?) {
      TailKeepsColonAway(e.body.arg, k, g);
    }
  }

  // The parser reads the first operand of a printed tree.
  lemma {:induction false} OperandReads(e: Expr, k: Tokens, g: bool)
    requires Obeys(e, g)
    ensures ParseOperand(Print(e, k), g) == Ok(First(e), Tail(e, k))
    decreases e.body, e.par, 1
  {
    if e.par {
      PrintParse(Expr(e.body, false), Next(Sym(RPar), k), g);
      ParenReads(PrintBody(e.body, Next(Sym(RPar), k)), Expr(e.body, false), k, g);
    } else if HasLeft(e) {
      OperandReads(Left(e), After(e, k), g);
    } else if e.body.Prefix? || e.body.AwaitOf? {
      HeldReads(e, k, g);
    } else if e.body.Array? {
      var xs := e.body.elements;
      ElementsRead(xs, k, g);
      ArrayReads(PrintExprs(xs, Next(Sym(RBrack), k)), xs, k, g);
      assert Print(e, k) == Next(Sym(LBrack), PrintExprs(xs, Next(Sym(RBrack), k)));
    }
  }

  lemma {:induction false} HeldReads(e: Expr, k: Tokens, g: bool)
    requires Obeys(e, g) && !e.par && (e.body.Prefix? || e.body.AwaitOf?)
    ensures ParseOperand(Print(e, k), g) == Ok(First(e), Tail(e, k))
    decreases e.body, e.par, 0
  {
    var x := e.body.arg;
    OperandReads(x, k, g);
    PrefixReads(if e.body.AwaitOf? then Await else e.body.op, Print(x, k), First(x), Tail(x, k), g);
  }

  lemma ParenReads(ts: Tokens, x: Expr, k: Tokens, g: bool)
    requires ParseExpr(ts, g) == Ok(x, Next(Sym(RPar), k))
    ensures ParseOperand(Next(Sym(LPar), ts), g) == Ok(Expr(x.body, true), k)
  {
  }

  lemma PrefixReads(op: Op, ts: Tokens, o: Expr, k: Tokens, g: bool)
    requires op.Await? || (IsPrefix(op) && (IsStep(op) ==> IsAccess(o)))
    requires ParseOperand(ts, g) == Ok(o, k)
    ensures
      ParseOperand(Next(Sym(op), ts), g) == Ok(Expr(if op.Await? then AwaitOf(o) else Prefix(op, o), false), k)
  {
  }

  lemma ArrayReads(ts: Tokens, xs: Exprs, k: Tokens, g: bool)
    requires ParseElements(ts, g) == Ok(xs, k)
    ensures ParseOperand(Next(Sym(LBrack), ts), g) == Ok(Expr(Array(xs), false), k)
  {
  }

  // Inserting one operator after the other, it builds the whole tree.
  lemma {:induction false} Reaches(e: Expr, k: Tokens, lo: int, g: bool)
    requires Obeys(e, g) && Tight(e, lo)
    ensures Steps(First(e), Tail(e, k), e, k, lo, g)
    decreases e.body, e.par, 2
  {
    if HasLeft(e) {
      if HasRight(e) { ReachesInfix(e, k, lo, g); } else { ReachesSuffix(e, k, lo, g); }
    } else if !e.par && (e.body.Prefix? || e.body.AwaitOf?) {
      ReachesRight(e, First(e.body.arg), k, lo, g);
    }
  }

  // The operator behind the left operand, when nothing is on its right.
  function SuffixItem(e: Expr): Item
    requires HasLeft(e) && !HasRight(e)
  {
    match e.body
    case Prop(_, p) => PropItem(p)
    case Index(_, y) => IndexItem(y)
    case Call(_, args) => CallItem(args)
    case Postfix(_, op) => StepItem(op)
  }

  lemma {:induction false} ReachesSuffix(e: Expr, k: Tokens, lo: int, g: bool)
    requires Obeys(e, g) && Tight(e, lo) && HasLeft(e) && !HasRight(e)
    ensures Steps(First(e), Tail(e, k), e, k, lo, g)
    decreases e.body, e.par, 1
  {
    SuffixItemFits(e, lo, g);
    SuffixItemReads(e, k, g);
    ReachesOne(e, Left(e), SuffixItem(e), After(e, k), k, lo, g);
  }

  lemma SuffixItemFits(e: Expr, lo: int, g: bool)
    requires Obeys(e, g) && Tight(e, lo) && HasLeft(e) && !HasRight(e)
    ensures Obeys(Left(e), g) && Tight(Left(e), lo)
    ensures ItemPrecedence(SuffixItem(e)) >= lo && !Descends(Left(e), ItemPrecedence(SuffixItem(e)))
    ensures Attach(Left(e), SuffixItem(e), g) == Good(e)
  {
  }

  lemma {:induction false} SuffixItemReads(e: Expr, k: Tokens, g: bool)
    requires Obeys(e, g) && HasLeft(e) && !HasRight(e)
    ensures ParseItem(After(e, k), g) == Ok(SuffixItem(e), k)
    decreases e.body, e.par, 0
  {
    match e.body
    case Prop(_, _) =>
    case Postfix(_, _) =>
    case Index(_, y) =>
      PrintParse(y, Next(Sym(RBrack), k), g);
      IndexReads(Print(y, Next(Sym(RBrack), k)), y, k, g);
    case Call(_, args) =>
      ArgsRead(args, k, g);
      CallReads(PrintArgs(args, Next(Sym(RPar), k)), args, k, g);
  }

  lemma IndexReads(ts: Tokens, x: Expr, k: Tokens, g: bool)
    requires ParseExpr(ts, g) == Ok(x, Next(Sym(RBrack), k))
    ensures ParseItem(Next(Sym(LBrack), ts), g) == Ok(IndexItem(x), k)
  {
  }

  lemma CallReads(ts: Tokens, args: Args, k: Tokens, g: bool)
    requires ParseArgs(ts, g) == Ok(args, k)
    ensures ParseItem(Next(Sym(LPar), ts), g) == Ok(CallItem(args), k)
  {
  }

  lemma {:induction false} ReachesInfix(e: Expr, k: Tokens, lo: int, g: bool)
    requires Obeys(e, g) && Tight(e, lo) && HasLeft(e) && HasRight(e)
    ensures Steps(First(e), Tail(e, k), e, k, lo, g)
    decreases e.body, e.par, 1
  {
    if e.body.Binary? && !Tight(Right(e), Floor(e.body)) {
      ReachesRegrouped(e, k, lo, g);
    } else {
      InfixItemReads(e, k, g);
      InfixItemFits(e, lo, g);
      ReachesTwo(e, InfixItem(e), k, lo, g);
    }
  }

  // The operator of `e` with the first operand on its right.
  function InfixItem(e: Expr): Item
    requires HasLeft(e) && HasRight(e)
  {
    var o := First(Right(e));
    match e.body
    case Binary(_, op, _) => BinaryItem(op, o)
    case Assign(_, op, _) => AssignItem(op, o)
    case Cond(_, t, _) => CondItem(t, o)
  }

  // An operator is read with the operand behind it.
  lemma InfixReads(op: Op, ts: Tokens, o: Expr, k: Tokens, g: bool)
    requires IsBinary(op) || IsAssign(op)
    requires ParseOperand(ts, g) == Ok(o, k)
    ensures ParseItem(Next(Sym(op), ts), g) == Ok(if IsBinary(op) then BinaryItem(op, o) else AssignItem(op, o), k)
  {
    if IsBinary(op) { BinaryKind(op); } else { AssignKind(op); }
  }

  lemma CondReads(ts: Tokens, t: Expr, ts': Tokens, o: Expr, k: Tokens, g: bool)
    requires ParseExpr(ts, g) == Ok(t, Next(Sym(Colon), ts')) && ParseOperand(ts', g) == Ok(o, k)
    ensures ParseItem(Next(Sym(Qn), ts), g) == Ok(CondItem(t, o), k)
  {
  }

  lemma {:induction false} InfixItemReads(e: Expr, k: Tokens, g: bool)
    requires HasLeft(e) && HasRight(e) && Obeys(e, g)
    ensures ParseItem(After(e, k), g) == Ok(InfixItem(e), Tail(Right(e), k))
    decreases e.body, e.par, 0
  {
    var y := Right(e);
    RightObeys(e, g);
    OperandReads(y, k, g);
    if e.body.Cond? {
      CondPrintReads(e.body.thn, y, k, g);
    } else {
      InfixReads(e.body.op, Print(y, k), First(y), Tail(y, k), g);
      if e.body.Binary? { BinaryKind(e.body.op); } else { AssignKind(e.body.op); }
    }
  }

  lemma RightObeys(e: Expr, g: bool)
    requires HasLeft(e) && HasRight(e) && Obeys(e, g)
    ensures Obeys(Right(e), g) && Obeys(Left(e), g)
    ensures e.body.Cond? ==> Obeys(e.body.thn, g)
    ensures e.body.Binary? ==> IsBinary(e.body.op)
    ensures e.body.Assign? ==> IsAssign(e.body.op)
  {
  }

  lemma {:induction false} CondPrintReads(t: Expr, y: Expr, k: Tokens, g: bool)
    requires Obeys(t, g) && ParseOperand(Print(y, k), g) == Ok(First(y), Tail(y, k))
    ensures
      ParseItem(Next(Sym(Qn), Print(t, Next(Sym(Colon), Print(y, k)))), g) == Ok(CondItem(t, First(y)), Tail(y, k))
    decreases t.body, t.par, 4
  {
    PrintParse(t, Next(Sym(Colon), Print(y, k)), g);
    CondReads(Print(t, Next(Sym(Colon), Print(y, k))), t, Print(y, k), First(y), Tail(y, k), g);
  }

  lemma {:induction false} InfixItemFits(e: Expr, lo: int, g: bool)
    requires HasLeft(e) && HasRight(e) && Obeys(e, g) && (e.body.Binary? ==> Tight(Right(e), Floor(e.body)))
    requires Tight(e, lo)
    ensures Obeys(Left(e), g) && Obeys(Right(e), g) && Tight(Right(e), Floor(e.body))
    ensures ItemPrecedence(InfixItem(e)) >= lo && Tight(Left(e), lo) && Tight(Right(e), lo)
    ensures !Descends(Left(e), ItemPrecedence(InfixItem(e)))
    ensures Attach(Left(e), InfixItem(e), g) == Good(WithRight(e, First(Right(e))))
  {
    var o := First(Right(e));
    RightObeys(e, g);
    InfixItemBinds(e, lo);
    if e.body.Binary? { assert !(g && Joins(Left(e), e.body.op, o)); }
  }

  lemma InfixItemBinds(e: Expr, lo: int)
    requires HasLeft(e) && HasRight(e) && Tight(e, lo)
    ensures ItemPrecedence(InfixItem(e)) >= lo && Tight(Left(e), lo) && Tight(Right(e), lo)
  {
  }

  // The left operand first, then one operator.
  lemma {:induction false} ReachesOne(e: Expr, x: Expr, it: Item, k: Tokens, k': Tokens, lo: int, g: bool)
    requires Obeys(x, g) && Tight(x, lo) && ItemPrecedence(it) >= lo && !Descends(x, ItemPrecedence(it))
    requires ParseItem(k, g) == Ok(it, k') && Attach(x, it, g) == Good(e)
    ensures Steps(First(x), Tail(x, k), e, k', lo, g)
    decreases x.body, x.par, 3
  {
    Reaches(x, k, lo, g);
    OneInsertion(x, it, k, k', e, lo, g);
    StepsTrans(First(x), Tail(x, k), x, k, e, k', lo, g);
  }

  // The operators of the right operand are inserted into it.
  lemma {:induction false} ReachesRight(e: Expr, o: Expr, k: Tokens, lo: int, g: bool)
    requires HasRight(e) && !e.par && o == First(Right(e))
    requires Obeys(Right(e), g) && Tight(Right(e), lo) && Tight(Right(e), Floor(e.body))
    ensures Steps(WithRight(e, o), Tail(Right(e), k), e, k, lo, g)
    decreases Right(e).body, Right(e).par, 3
  {
    var m := if lo < Floor(e.body) then Floor(e.body) else lo;
    RightBack(e, o);
    Reaches(Right(e), k, m, g);
    StepsInRight(WithRight(e, o), Tail(Right(e), k), Right(e), k, m, g);
    StepsLower(WithRight(e, o), Tail(Right(e), k), e, k, m, lo, g);
  }

  // The left operand, an operator with the first operand on its right, and
  // the rest of the right operand.
  lemma {:induction false} ReachesTwo(e: Expr, it: Item, k: Tokens, lo: int, g: bool)
    requires HasLeft(e) && HasRight(e) && Tight(Right(e), Floor(e.body))
    requires Obeys(Left(e), g) && Tight(Left(e), lo) && Obeys(Right(e), g) && Tight(Right(e), lo)
    requires ItemPrecedence(it) >= lo && !Descends(Left(e), ItemPrecedence(it))
    requires ParseItem(After(e, k), g) == Ok(it, Tail(Right(e), k))
    requires Attach(Left(e), it, g) == Good(WithRight(e, First(Right(e))))
    ensures Steps(First(e), Tail(e, k), e, k, lo, g)
    decreases e.body, e.par, 0
  {
    var o := First(Right(e));
    ReachesOne(WithRight(e, o), Left(e), it, After(e, k), Tail(Right(e), k), lo, g);
    ReachesRight(e, o, k, lo, g);
    StepsTrans(First(e), Tail(e, k), WithRight(e, o), Tail(Right(e), k), e, k, lo, g);
  }

  // Here the second `+` does not extend the tree at the top but the literal
  // that was its right operand.
  lemma {:induction false} ReachesRegrouped(e: Expr, k: Tokens, lo: int, g: bool)
    requires e.body.Binary? && !e.par && Obeys(e, g) && Tight(e, lo) && g && Regrouped(e.body)
    ensures Steps(First(e), Tail(e, k), e, k, lo, g)
    decreases e.body, e.par, 0, 1
  {
    var x, op, y := e.body.left, e.body.op, e.body.right;
    var s, r := y.body.left, y.body.right;
    var k' := Next(Sym(op), Print(y, k));
    var k1 := Next(Sym(Plus), Print(r, k));
    var e1, e2 := WithRight(e, s), WithRight(e, WithRight(y, First(r)));
    assert Print(y, k) == Print(s, k1);
    FirstLiteral(e, k1, lo, g);
    LiteralsMeet(e, k, lo, g);
    StepsTrans(First(x), Tail(x, k'), e1, k1, e2, Tail(r, k), lo, g);
    RegroupedRest(e, r, k, lo, g);
    StepsTrans(First(x), Tail(x, k'), e2, Tail(r, k), e, k, lo, g);
  }

  // The tree up to the first literal.
  lemma {:induction false} FirstLiteral(e: Expr, k: Tokens, lo: int, g: bool)
    requires e.body.Binary? && !e.par && Obeys(e, g) && Tight(e, lo) && Regrouped(e.body)
    ensures
      var x, s := e.body.left, e.body.right.body.left;
      Steps(First(x), Tail(x, Next(Sym(e.body.op), Print(s, k))), WithRight(e, s), k, lo, g)
    decreases e.body, e.par, 0, 0
  {
    var x, op, s := e.body.left, e.body.op, e.body.right.body.left;
    LiteralFits(e, lo, g);
    LiteralIsFirst(s, k);
    OperandReads(s, k, g);
    InfixReads(op, Print(s, k), s, k, g);
    ReachesOne(WithRight(e, s), x, BinaryItem(op, s), Next(Sym(op), Print(s, k)), k, lo, g);
  }

  lemma LiteralIsFirst(s: Expr, k: Tokens)
    requires IsStr(s)
    ensures First(s) == s && Tail(s, k) == k
  {
  }

  lemma LiteralFits(e: Expr, lo: int, g: bool)
    requires e.body.Binary? && !e.par && Obeys(e, g) && Tight(e, lo) && Regrouped(e.body)
    ensures
      var x, op, s := e.body.left, e.body.op, e.body.right.body.left;
      && Obeys(x, g) && Tight(x, lo) && Obeys(s, g) && IsStr(s)
      && IsBinary(op) && Precedence(op, false) >= lo && !Descends(x, Precedence(op, false))
      && Attach(x, BinaryItem(op, s), g) == Good(WithRight(e, s))
  {
    RightObeys(e, g);
    assert Obeys(e.body.right.body.left, g);
    LiteralAttaches(e, g);
  }

  lemma LiteralAttaches(e: Expr, g: bool)
    requires e.body.Binary? && !e.par && Obeys(e, g) && Regrouped(e.body)
    ensures
      var s := e.body.right.body.left;
      Attach(e.body.left, BinaryItem(e.body.op, s), g) == Good(WithRight(e, s))
  {
    var s := e.body.right.body.left;
    LiteralIsFirst(s, Eof);
    assert First(e.body.right) == s;
  }

  // The two literals meet.
  lemma {:induction false} LiteralsMeet(e: Expr, k: Tokens, lo: int, g: bool)
    requires e.body.Binary? && !e.par && Obeys(e, g) && Tight(e, lo) && g && Regrouped(e.body)
    ensures
      var y := e.body.right;
      var s, r := y.body.left, y.body.right;
      Steps(WithRight(e, s), Next(Sym(Plus), Print(r, k)), WithRight(e, WithRight(y, First(r))), Tail(r, k), lo, g)
    decreases e.body, e.par, 0, 0
  {
    var y := e.body.right;
    var s, r := y.body.left, y.body.right;
    SecondObeys(e, lo, g);
    LiteralsJoin(e, First(r));
    OperandReads(r, k, g);
    PlusInserted(WithRight(e, s), First(r), Print(r, k), Tail(r, k), WithRight(e, WithRight(y, First(r))), lo, g);
  }

  lemma PlusInserted(e: Expr, o: Expr, ts: Tokens, k: Tokens, e': Expr, lo: int, g: bool)
    requires ParseOperand(ts, g) == Ok(o, k) && Insert(e, BinaryItem(Plus, o), g) == Good(e')
    requires Precedence(Plus, false) >= lo
    ensures Steps(e, Next(Sym(Plus), ts), e', k, lo, g)
  {
    InfixReads(Plus, ts, o, k, g);
    OneInsertion(e, BinaryItem(Plus, o), Next(Sym(Plus), ts), k, e', lo, g);
  }

  lemma SecondObeys(e: Expr, lo: int, g: bool)
    requires e.body.Binary? && !e.par && Obeys(e, g) && Tight(e, lo) && Regrouped(e.body)
    ensures Obeys(e.body.right.body.right, g) && Tight(e.body.right.body.right, lo) && Precedence(Plus, false) >= lo
  {
    assert Obeys(e.body.right, g) && Tight(e.body.right, lo);
  }

  lemma LiteralsJoin(e: Expr, o: Expr)
    requires e.body.Binary? && !e.par && Regrouped(e.body) && IsStr(o)
    ensures
      Insert(WithRight(e, e.body.right.body.left), BinaryItem(Plus, o), true) ==
      Good(WithRight(e, WithRight(e.body.right, o)))
  {
    var e1 := WithRight(e, e.body.right.body.left);
    assert !Descends(e1, Precedence(Plus, false));
    assert Joins(e1, Plus, o);
  }

  lemma OneInsertion(e: Expr, it: Item, ts: Tokens, ts': Tokens, e': Expr, lo: int, g: bool)
    requires ParseItem(ts, g) == Ok(it, ts') && ItemPrecedence(it) >= lo && Insert(e, it, g) == Good(e')
    ensures Steps(e, ts, e', ts', lo, g)
  {
    assert Steps(e', ts', e', ts', lo, g);
  }

  lemma {:induction false} RegroupedRest(e: Expr, r: Expr, k: Tokens, lo: int, g: bool)
    requires e.body.Binary? && !e.par && Regrouped(e.body) && r == e.body.right.body.right
    requires Obeys(r, g) && Tight(r, lo)
    ensures Steps(WithRight(e, WithRight(e.body.right, First(r))), Tail(r, k), e, k, lo, g)
    decreases r.body, r.par, 3
  {
    var y := e.body.right;
    var f, f' := Floor(e.body), Floor(y.body);
    var m := if lo <= f then (if f <= f' then f' else f) else if lo <= f' then f' else lo;
    RightBack(y, First(r));
    RightBack(e, WithRight(y, First(r)));
    Reaches(r, k, m, g);
    StepsInRight(WithRight(y, First(r)), Tail(r, k), r, k, m, g);
    StepsInRight(WithRight(e, WithRight(y, First(r))), Tail(r, k), y, k, m, g);
    StepsLower(WithRight(e, WithRight(y, First(r))), Tail(r, k), e, k, m, lo, g);
  }

  // parse(print(e)) == e, and exactly the tokens of `e` are consumed.
  lemma {:induction false} PrintParse(e: Expr, k: Tokens, g: bool)
    requires Obeys(e, g) && Ends(k)
    ensures ParseExpr(Print(e, k), g) == Ok(e, k)
    decreases e.body, e.par, 3
  {
    OperandReads(e, k, g);
    TightAnyhow(e, 0);
    Reaches(e, k, 0, g);
    StepsWrap(First(e), Tail(e, k), e, k, 0, g);
    assert ParseItem(k, g).Null?;
  }

  // No printed tree starts with a closing bracket; an argument starts with a
  // name and a colon only when it has a name.
  lemma {:induction false} ArgStarts(id: Option<string>, x: Expr, k: Tokens, g: bool)
    requires Obeys(x, g) && !Starts(k, Colon)
    ensures !Starts(Print(x, k), RBrack) && !Starts(PrintArg(id, x, k), RPar)
    ensures StartsNamed(PrintArg(id, x, k)) == id.Some? && SkipName(PrintArg(id, x, k)) == Print(x, k)
    ensures id.Some? ==> PrintArg(id, x, k).tok.name == id.value
    decreases x.body, x.par, 2
  {
    OperandReads(x, k, g);
    TailKeepsColonAway(x, k, g);
  }

  // One more element in front, and one more argument.
  lemma ElementReads(x: Expr, xs: Exprs, k: Tokens, ts: Tokens, k': Tokens, g: bool)
    requires !Starts(ts, RBrack) && ParseExpr(ts, g) == Ok(x, k) && ParseElements(SkipComma(k), g) == Ok(xs, k')
    ensures ParseElements(ts, g) == Ok(MoreExprs(x, xs), k')
  {
  }

  lemma ArgReads(id: Option<string>, x: Expr, xs: Args, k: Tokens, ts: Tokens, k': Tokens, g: bool)
    requires !Starts(ts, RPar) && id == (if StartsNamed(ts) then Some(ts.tok.name) else None)
    requires ParseExpr(SkipName(ts), g) == Ok(x, k) && ParseArgs(SkipComma(k), g) == Ok(xs, k')
    ensures ParseArgs(ts, g) == Ok(MoreArgs(id, x, xs), k')
  {
  }

  // What is printed behind the first element of a list, and behind the first
  // argument.
  function MoreElements(xs: Exprs, k: Tokens): Tokens {
    if xs.NoExprs? then Next(Sym(RBrack), k) else Next(Sym(Comma), PrintExprs(xs, Next(Sym(RBrack), k)))
  }

  function MoreArguments(xs: Args, k: Tokens): Tokens {
    if xs.NoArgs? then Next(Sym(RPar), k) else Next(Sym(Comma), PrintArgs(xs, Next(Sym(RPar), k)))
  }

  lemma BehindElement(x: Expr, xs: Exprs, k: Tokens)
    ensures PrintExprs(MoreExprs(x, xs), Next(Sym(RBrack), k)) == Print(x, MoreElements(xs, k))
    ensures SkipComma(MoreElements(xs, k)) == PrintExprs(xs, Next(Sym(RBrack), k))
    ensures Ends(MoreElements(xs, k)) && !Starts(MoreElements(xs, k), Colon)
  {
  }

  lemma BehindArgument(id: Option<string>, x: Expr, xs: Args, k: Tokens)
    ensures PrintArgs(MoreArgs(id, x, xs), Next(Sym(RPar), k)) == PrintArg(id, x, MoreArguments(xs, k))
    ensures SkipComma(MoreArguments(xs, k)) == PrintArgs(xs, Next(Sym(RPar), k))
    ensures Ends(MoreArguments(xs, k)) && !Starts(MoreArguments(xs, k), Colon)
  {
  }

  lemma {:induction false} ElementsRead(xs: Exprs, k: Tokens, g: bool)
    requires ObeyAll(xs, g)
    ensures ParseElements(PrintExprs(xs, Next(Sym(RBrack), k)), g) == Ok(xs, k)
    decreases xs, 4
  {
    if xs.MoreExprs? {
      var x, k' := xs.first, MoreElements(xs.others, k);
      BehindElement(x, xs.others, k);
      ElementsRead(xs.others, k, g);
      ArgStarts(None, x, k', g);
      PrintParse(x, k', g);
      ElementReads(x, xs.others, k', Print(x, k'), k, g);
    }
  }

  lemma {:induction false} ArgsRead(xs: Args, k: Tokens, g: bool)
    requires ObeyArgs(xs, g)
    ensures ParseArgs(PrintArgs(xs, Next(Sym(RPar), k)), g) == Ok(xs, k)
    decreases xs, 4
  {
    if xs.MoreArgs? {
      var x, k' := xs.arg, MoreArguments(xs.others, k);
      BehindArgument(xs.id, x, xs.others, k);
      ArgsRead(xs.others, k, g);
      ArgStarts(xs.id, x, k', g);
      PrintParse(x, k', g);
      ArgReads(xs.id, x, xs.others, k', PrintArg(xs.id, x, k'), k, g);
    }
  }
}
