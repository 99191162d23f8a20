/** The printed tree against the tokens the parser consumed. */
module ExprTokens {
  import opened Prelude
  import opened Parsing
  import opened ExprSyntax
  import opened ExprSpec
  import opened ExprShape

  function PrintItem(it: Item, k: Tokens): Tokens {
    match it
    case PropItem(p) => Next(Sym(Dot), Next(Id(p), k))
    case IndexItem(x) => Next(Sym(LBrack), Print(x, Next(Sym(RBrack), k)))
    case CallItem(args) => Next(Sym(LPar), PrintArgs(args, Next(Sym(RPar), k)))
    case StepItem(op) => Next(Sym(op), k)
    case BinaryItem(op, x) => Next(Sym(op), Print(x, k))
    case AssignItem(op, x) => Next(Sym(op), Print(x, k))
    case CondItem(t, x) => Next(Sym(Qn), Print(t, Next(Sym(Colon), Print(x, k))))
  }

  // However deep an operator is inserted, and whatever it regroups, the tokens
  // of the tree are the old ones followed by the operator's.
  lemma {:induction false} InsertPrints(e: Expr, it: Item, k: Tokens, g: bool)
    requires Insert(e, it, g).Good?
    ensures Print(Insert(e, it, g).value, k) == Print(e, PrintItem(it, k))
    decreases e.body
  {
    if Descends(e, ItemPrecedence(it)) {
      var r := Insert(Right(e), it, g).value;
      InsertPrints(Right(e), it, k, g);
      assert Insert(e, it, g).value == WithRight(e, r);
    } else if it.BinaryItem? && g && Joins(e, it.op, it.right) {
      JoinPrints(e, it.op, it.right, k);
    }
  }

  lemma JoinPrints(e: Expr, op: Op, o: Expr, k: Tokens)
    requires Joins(e, op, o)
    ensures Print(Attach(e, BinaryItem(op, o), true).value, k) == Print(e, Next(Sym(op), Print(o, k)))
  {
    var y := Expr(Binary(e.body.right, op, o), false);
    assert Print(y, k) == Print(e.body.right, Next(Sym(op), Print(o, k)));
  }

  // The list as it may have been written: `commas` says behind which elements
  // a comma stands.
  function LooseExprs(xs: Exprs, commas: seq<bool>, k: Tokens): Tokens {
    match xs
    case NoExprs => k
    case MoreExprs(x, others) => Print(x, WithComma(commas, LooseExprs(others, Others(commas), k)))
  }

  function LooseArgs(xs: Args, commas: seq<bool>, k: Tokens): Tokens {
    match xs
    case NoArgs => k
    case MoreArgs(id, x, others) => PrintArg(id, x, WithComma(commas, LooseArgs(others, Others(commas), k)))
  }

  // What printing may change: the commas of an array literal or an argument
  // list are put between its elements and nowhere else, and parentheses around
  // a parenthesised tree are dropped.
  datatype Tidying =
    | Same
    | Then(first: Tidying, mid: Tokens, second: Tidying)
    | Under(inner: Tidying)
    | ElementCommas(elements: Exprs, commas: seq<bool>, k: Tokens)
    | ArgCommas(args: Args, commas: seq<bool>, k: Tokens)
    | Unwrap(body: Body, k: Tokens)

  predicate Tidies(c: Tidying, ts: Tokens, ts': Tokens) {
    match c
    case Same => ts == ts'
    case Then(c1, mid, c2) => Tidies(c1, ts, mid) && Tidies(c2, mid, ts')
    case Under(c1) => ts.Next? && ts'.Next? && ts.tok == ts'.tok && Tidies(c1, ts.rest, ts'.rest)
    case ElementCommas(xs, commas, k) =>
      && ts == Next(Sym(LBrack), LooseExprs(xs, commas, Next(Sym(RBrack), k)))
      && ts' == Next(Sym(LBrack), PrintExprs(xs, Next(Sym(RBrack), k)))
    case ArgCommas(args, commas, k) =>
      && ts == Next(Sym(LPar), LooseArgs(args, commas, Next(Sym(RPar), k)))
      && ts' == Next(Sym(LPar), PrintArgs(args, Next(Sym(RPar), k)))
    case Unwrap(b, k) =>
      ts == Next(Sym(LPar), Print(Expr(b, true), Next(Sym(RPar), k))) && ts' == Print(Expr(b, true), k)
  }

  lemma {:induction false} Lift(e: Expr, c: Tidying, ts: Tokens, ts': Tokens) returns (d: Tidying)
    requires Tidies(c, ts, ts')
    ensures Tidies(d, Print(e, ts), Print(e, ts'))
    decreases e.body, e.par, 1
  {
    if e.par {
      d := Lift(Expr(e.body, false), Under(c), Next(Sym(RPar), ts), Next(Sym(RPar), ts'));
      d := Under(d);
      assert Print(e, ts) == Next(Sym(LPar), Print(Expr(e.body, false), Next(Sym(RPar), ts)));
      assert Print(e, ts') == Next(Sym(LPar), Print(Expr(e.body, false), Next(Sym(RPar), ts')));
    } else if HasLeft(e) {
      d := LiftAfter(e, c, ts, ts');
      d := Lift(Left(e), d, After(e, ts), After(e, ts'));
    } else if e.body.Prefix? || e.body.AwaitOf? {
      d := Lift(e.body.arg, c, ts, ts');
      d := Under(d);
    } else if e.body.Array? {
      d := LiftExprs(e.body.elements, Under(c), Next(Sym(RBrack), ts), Next(Sym(RBrack), ts'));
      d := Under(d);
    } else if e.body.DotName? {
      d := Under(Under(c));
    } else {
      d := Under(c);
    }
  }

  lemma {:induction false} LiftAfter(e: Expr, c: Tidying, ts: Tokens, ts': Tokens) returns (d: Tidying)
    requires HasLeft(e) && Tidies(c, ts, ts')
    ensures Tidies(d, After(e, ts), After(e, ts'))
    decreases e.body, e.par, 0
  {
    match e.body
    case Prop(x, p) => d := Under(Under(c));
    case Postfix(x, op) => d := Under(c);
    case Index(x, y) =>
      d := Lift(y, Under(c), Next(Sym(RBrack), ts), Next(Sym(RBrack), ts'));
      d := Under(d);
    case Binary(x, op, y) =>
      d := Lift(y, c, ts, ts');
      d := Under(d);
    case Assign(x, op, y) =>
      d := Lift(y, c, ts, ts');
      d := Under(d);
    case Cond(x, y, z) =>
      d := Lift(z, c, ts, ts');
      d := Lift(y, Under(d), Next(Sym(Colon), Print(z, ts)), Next(Sym(Colon), Print(z, ts')));
      d := Under(d);
    case Call(x, args) =>
      d := LiftArgs(args, Under(c), Next(Sym(RPar), ts), Next(Sym(RPar), ts'));
      d := Under(d);
  }

  lemma {:induction false} LiftExprs(xs: Exprs, c: Tidying, ts: Tokens, ts': Tokens) returns (d: Tidying)
    requires Tidies(c, ts, ts')
    ensures Tidies(d, PrintExprs(xs, ts), PrintExprs(xs, ts'))
    decreases xs
  {
    match xs
    case NoExprs => d := c;
    case MoreExprs(x, NoExprs) => d := Lift(x, c, ts, ts');
    case MoreExprs(x, MoreExprs(y, ys)) =>
      var others := MoreExprs(y, ys);
      d := LiftExprs(others, c, ts, ts');
      d := Lift(x, Under(d), Next(Sym(Comma), PrintExprs(others, ts)), Next(Sym(Comma), PrintExprs(others, ts')));
  }

  lemma {:induction false} LiftArg(id: Option<string>, x: Expr, c: Tidying, ts: Tokens, ts': Tokens)
    returns (d: Tidying)
    requires Tidies(c, ts, ts')
    ensures Tidies(d, PrintArg(id, x, ts), PrintArg(id, x, ts'))
    decreases x, 1
  {
    d := Lift(x, c, ts, ts');
    if id.Some? { d := Under(Under(d)); }
  }

  lemma {:induction false} LiftArgs(xs: Args, c: Tidying, ts: Tokens, ts': Tokens) returns (d: Tidying)
    requires Tidies(c, ts, ts')
    ensures Tidies(d, PrintArgs(xs, ts), PrintArgs(xs, ts'))
    decreases xs
  {
    match xs
    case NoArgs => d := c;
    case MoreArgs(id, x, NoArgs) => d := LiftArg(id, x, c, ts, ts');
    case MoreArgs(id, x, MoreArgs(id', y, ys)) =>
      var others := MoreArgs(id', y, ys);
      d := LiftArgs(others, c, ts, ts');
      d := LiftArg(id, x, Under(d), Next(Sym(Comma), PrintArgs(others, ts)), Next(Sym(Comma), PrintArgs(others, ts')));
  }

  // The tokens of the tree are those the parser consumed, but for tidying.
  lemma {:induction false} ParseExprTidies(ts: Tokens, g: bool) returns (c: Tidying)
    requires ParseExpr(ts, g).Ok?
    ensures Tidies(c, ts, Print(ParseExpr(ts, g).value, ParseExpr(ts, g).rest))
    decreases Len(ts), 2
  {
    var o := ParseOperand(ts, g);
    var c1 := ParseOperandTidies(ts, g);
    var c2 := WrapAllTidies(o.value, o.rest, g);
    c := Then(c1, Print(o.value, o.rest), c2);
  }

  lemma {:induction false} ParseOperandTidies(ts: Tokens, g: bool) returns (c: Tidying)
    requires ParseOperand(ts, g).Ok?
    ensures Tidies(c, ts, Print(ParseOperand(ts, g).value, ParseOperand(ts, g).rest))
    decreases Len(ts), 1
  {
    c := Same;
    if ts.tok.Sym? {
      var op, rest := ts.tok.op, ts.rest;
      if op.Await? || IsPrefix(op) {
        c := ParseOperandTidies(rest, g);
        c := Under(c);
      } else if op.LBrack? {
        c := ArrayTidies(rest, g);
      } else if op.LPar? {
        c := ParseExprTidies(rest, g);
        var x, k := ParseExpr(rest, g).value, ParseExpr(rest, g).rest.rest;
        c := Parens(x, k, c, rest);
      }
    }
  }

  lemma {:induction false} ArrayTidies(ts: Tokens, g: bool) returns (c: Tidying)
    requires ParseElements(ts, g).Ok?
    ensures
      var r := ParseElements(ts, g);
      Tidies(c, Next(Sym(LBrack), ts), Print(Expr(Array(r.value), false), r.rest))
    decreases Len(ts), 4
  {
    var xs, k := ParseElements(ts, g).value, ParseElements(ts, g).rest;
    var d, commas := ParseElementsTidies(ts, g);
    c := Then(Under(d), Next(Sym(LBrack), LooseExprs(xs, commas, Next(Sym(RBrack), k))), ElementCommas(xs, commas, k));
  }

  lemma Parens(x: Expr, k: Tokens, c: Tidying, ts: Tokens) returns (d: Tidying)
    requires Tidies(c, ts, Print(x, Next(Sym(RPar), k)))
    ensures Tidies(d, Next(Sym(LPar), ts), Print(Expr(x.body, true), k))
  {
    var mid := Next(Sym(LPar), Print(x, Next(Sym(RPar), k)));
    assert Tidies(Under(c), Next(Sym(LPar), ts), mid);
    if x.par {
      assert x == Expr(x.body, true);
      assert Tidies(Unwrap(x.body, k), mid, Print(Expr(x.body, true), k));
      d := Then(Under(c), mid, Unwrap(x.body, k));
    } else {
      d := Under(c);
    }
  }

  // From what follows an element, perhaps a comma, to the next element.
  lemma Separator(c: Tidying, commas: seq<bool>, ts: Tokens, ts': Tokens) returns (d: Tidying, commas': seq<bool>)
    requires Tidies(c, SkipComma(ts), ts')
    ensures Others(commas') == commas && Tidies(d, ts, WithComma(commas', ts'))
  {
    d := if Starts(ts, Comma) then Under(c) else c;
    commas' := [Starts(ts, Comma)] + commas;
  }

  lemma {:induction false} ParseElementsTidies(ts: Tokens, g: bool) returns (c: Tidying, commas: seq<bool>)
    requires ParseElements(ts, g).Ok?
    ensures
      var r := ParseElements(ts, g);
      Tidies(c, ts, LooseExprs(r.value, commas, Next(Sym(RBrack), r.rest)))
    decreases Len(ts), 3
  {
    var r := ParseElements(ts, g);
    var end := Next(Sym(RBrack), r.rest);
    if Starts(ts, RBrack) {
      c, commas := Same, [];
    } else {
      var x, k := r.value.first, ParseExpr(ts, g).rest;
      var others := r.value.others;
      var c1 := ParseExprTidies(ts, g);
      var d, cs := ParseElementsTidies(SkipComma(k), g);
      var from := LooseExprs(others, cs, end);
      d, commas := Separator(d, cs, k, from);
      d := Lift(x, d, k, WithComma(commas, from));
      c := Then(c1, Print(x, k), d);
    }
  }

  lemma {:induction false} ParseArgsTidies(ts: Tokens, g: bool) returns (c: Tidying, commas: seq<bool>)
    requires ParseArgs(ts, g).Ok?
    ensures
      var r := ParseArgs(ts, g);
      Tidies(c, ts, LooseArgs(r.value, commas, Next(Sym(RPar), r.rest)))
    decreases Len(ts), 3
  {
    var r := ParseArgs(ts, g);
    var end := Next(Sym(RPar), r.rest);
    if Starts(ts, RPar) {
      c, commas := Same, [];
    } else {
      var id, x, others := r.value.id, r.value.arg, r.value.others;
      var k := ParseExpr(SkipName(ts), g).rest;
      var c1 := ParseExprTidies(SkipName(ts), g);
      if id.Some? { c1 := Under(Under(c1)); }
      assert Tidies(c1, ts, PrintArg(id, x, k));
      var d, cs := ParseArgsTidies(SkipComma(k), g);
      var from := LooseArgs(others, cs, end);
      d, commas := Separator(d, cs, k, from);
      d := LiftArg(id, x, d, k, WithComma(commas, from));
      c := Then(c1, PrintArg(id, x, k), d);
    }
  }

  lemma {:induction false} ParseItemTidies(ts: Tokens, g: bool) returns (c: Tidying)
    requires ParseItem(ts, g).Ok?
    ensures Tidies(c, ts, PrintItem(ParseItem(ts, g).value, ParseItem(ts, g).rest))
    decreases Len(ts), 0
  {
    var op := ts.tok.op;
    c := Same;
    if op.LBrack? {
      c := ParseExprTidies(ts.rest, g);
      c := Under(c);
    } else if op.LPar? {
      c := CallTidies(ts.rest, g);
    } else if op.Qn? {
      c := CondTidies(ts.rest, g);
      c := Under(c);
    } else if !op.Dot? && !IsStep(op) {
      InfixPrints(ts, g);
      c := ParseOperandTidies(ts.rest, g);
      c := Under(c);
    }
  }

  lemma {:induction false} CallTidies(ts: Tokens, g: bool) returns (c: Tidying)
    requires ParseArgs(ts, g).Ok?
    ensures
      var r := ParseArgs(ts, g);
      Tidies(c, Next(Sym(LPar), ts), PrintItem(CallItem(r.value), r.rest))
    decreases Len(ts), 4
  {
    var args, k := ParseArgs(ts, g).value, ParseArgs(ts, g).rest;
    var d, commas := ParseArgsTidies(ts, g);
    c := Then(Under(d), Next(Sym(LPar), LooseArgs(args, commas, Next(Sym(RPar), k))), ArgCommas(args, commas, k));
  }

  lemma InfixPrints(ts: Tokens, g: bool)
    requires ParseItem(ts, g).Ok?
    requires var op := ts.tok.op; !op.Dot? && !op.LBrack? && !op.LPar? && !IsStep(op) && !op.Qn?
    ensures
      var it, r := ParseItem(ts, g), ParseOperand(ts.rest, g);
      r.Ok? && PrintItem(it.value, it.rest) == Next(ts.tok, Print(r.value, r.rest))
  {
    assert IsBinary(ts.tok.op) || IsAssign(ts.tok.op);
  }

  lemma {:induction false} CondTidies(ts: Tokens, g: bool) returns (c: Tidying)
    requires ParseCond(ts, g).Ok?
    ensures
      var r := ParseCond(ts, g);
      r.value.CondItem? &&
      Tidies(c, ts, Print(r.value.thn, Next(Sym(Colon), Print(r.value.alt, r.rest))))
    decreases Len(ts), 4
  {
    var r := ParseCond(ts, g);
    var t, k := ParseExpr(ts, g).value, ParseExpr(ts, g).rest;
    var c1 := ParseExprTidies(ts, g);
    var d := ParseOperandTidies(k.rest, g);
    d := Lift(t, Under(d), k, Next(Sym(Colon), Print(r.value.alt, r.rest)));
    c := Then(c1, Print(t, k), d);
  }

  lemma {:induction false} WrapAllTidies(e: Expr, ts: Tokens, g: bool) returns (c: Tidying)
    requires WrapAll(e, ts, g).Ok?
    ensures Tidies(c, Print(e, ts), Print(WrapAll(e, ts, g).value, WrapAll(e, ts, g).rest))
    decreases Len(ts), 1
  {
    var it := ParseItem(ts, g);
    if it.Ok? {
      var e1 := Insert(e, it.value, g).value;
      var d := ParseItemTidies(ts, g);
      d := Lift(e, d, ts, PrintItem(it.value, it.rest));
      InsertPrints(e, it.value, it.rest, g);
      var c1 := WrapAllTidies(e1, it.rest, g);
      c := Then(d, Print(e1, it.rest), c1);
    } else {
      c := Same;
    }
  }
}
