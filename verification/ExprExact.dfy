/** Which token lists an expression gives back exactly as they were read. */
module ExprExact {
  import opened Prelude
  import opened Parsing
  import opened ExprSyntax
  import opened ExprSpec
  import opened ExprShape
  import opened ExprRound
  import opened ExprSound
  import opened ExprTokens

  // ----- On the tokens -----

  // Commas stand between elements and arguments and nowhere else, and no
  // parentheses stand directly inside others.
  predicate Neat(ts: Tokens, g: bool)
    decreases Len(ts), 2
  {
    NeatOperand(ts, g) && (ParseOperand(ts, g).Ok? ==> NeatItems(ParseOperand(ts, g).rest, g))
  }

  predicate NeatOperand(ts: Tokens, g: bool)
    decreases Len(ts), 1
  {
    ts.Next? && ts.tok.Sym? ==>
      var op := ts.tok.op;
      if op.Await? || IsPrefix(op) then NeatOperand(ts.rest, g)
      else if op.LBrack? then NeatElements(ts.rest, g)
      else op.LPar? ==> !Doubled(ts.rest, g) && Neat(ts.rest, g)
  }

  // Behind an opening parenthesis, another pair that ends where the first does.
  predicate Doubled(ts: Tokens, g: bool) {
    Starts(ts, LPar) && ParseOperand(ts, g).Ok? && Starts(ParseOperand(ts, g).rest, RPar)
  }

  // What follows an element of a list closed by `close`.
  predicate Separated(ts: Tokens, close: Op) {
    if Starts(ts, Comma) then !Starts(ts.rest, close) else Starts(ts, close)
  }

  predicate NeatElements(ts: Tokens, g: bool)
    decreases Len(ts), 3
  {
    Starts(ts, RBrack) ||
    (Neat(ts, g) &&
     var r := ParseExpr(ts, g);
     r.Ok? ==> Separated(r.rest, RBrack) && NeatElements(SkipComma(r.rest), g))
  }

  predicate NeatArgs(ts: Tokens, g: bool)
    decreases Len(ts), 3
  {
    Starts(ts, RPar) ||
    (Neat(SkipName(ts), g) &&
     var r := ParseExpr(SkipName(ts), g);
     r.Ok? ==> Separated(r.rest, RPar) && NeatArgs(SkipComma(r.rest), g))
  }

  predicate NeatItems(ts: Tokens, g: bool)
    decreases Len(ts), 1
  {
    var it := ParseItem(ts, g);
    it.Ok? ==> NeatItem(ts, g) && NeatItems(it.rest, g)
  }

  predicate NeatItem(ts: Tokens, g: bool)
    requires ParseItem(ts, g).Ok?
    decreases Len(ts), 0
  {
    var op := ts.tok.op;
    if op.LBrack? then Neat(ts.rest, g)
    else if op.LPar? then NeatArgs(ts.rest, g)
    else if op.Qn? then NeatCond(ts.rest, g)
    else IsBinary(op) || IsAssign(op) ==> NeatOperand(ts.rest, g)
  }

  predicate NeatCond(ts: Tokens, g: bool)
    decreases Len(ts), 3
  {
    Neat(ts, g) &&
    var r := ParseExpr(ts, g);
    r.Ok? && Starts(r.rest, Colon) ==> NeatOperand(r.rest.rest, g)
  }

  // ----- What is printed behind a tree can be told from the whole -----

  lemma {:induction false} Cancel(e: Expr, j: Tokens, k: Tokens)
    requires Print(e, j) == Print(e, k)
    ensures j == k
    decreases e.body, e.par, 1
  {
    if e.par {
      Cancel(Expr(e.body, false), Next(Sym(RPar), j), Next(Sym(RPar), k));
    } else if HasLeft(e) {
      Cancel(Left(e), After(e, j), After(e, k));
      CancelAfter(e, j, k);
    } else if e.body.Prefix? || e.body.AwaitOf? {
      Cancel(e.body.arg, j, k);
    } else if e.body.Array? {
      CancelElements(e.body.elements, Next(Sym(RBrack), j), Next(Sym(RBrack), k));
    }
  }

  lemma {:induction false} CancelAfter(e: Expr, j: Tokens, k: Tokens)
    requires HasLeft(e) && After(e, j) == After(e, k)
    ensures j == k
    decreases e.body, e.par, 0
  {
    match e.body
    case Prop(_, _) =>
    case Postfix(_, _) =>
    case Index(_, y) => Cancel(y, Next(Sym(RBrack), j), Next(Sym(RBrack), k));
    case Binary(_, _, y) => Cancel(y, j, k);
    case Assign(_, _, y) => Cancel(y, j, k);
    case Cond(_, y, z) =>
      Cancel(y, Next(Sym(Colon), Print(z, j)), Next(Sym(Colon), Print(z, k)));
      Cancel(z, j, k);
    case Call(_, args) => CancelArgs(args, Next(Sym(RPar), j), Next(Sym(RPar), k));
  }

  lemma {:induction false} CancelElements(xs: Exprs, j: Tokens, k: Tokens)
    requires PrintExprs(xs, j) == PrintExprs(xs, k)
    ensures j == k
    decreases xs
  {
    match xs
    case NoExprs =>
    case MoreExprs(x, NoExprs) => Cancel(x, j, k);
    case MoreExprs(x, MoreExprs(y, ys)) =>
      var others := MoreExprs(y, ys);
      Cancel(x, Next(Sym(Comma), PrintExprs(others, j)), Next(Sym(Comma), PrintExprs(others, k)));
      CancelElements(others, j, k);
  }

  lemma {:induction false} CancelArgs(xs: Args, j: Tokens, k: Tokens)
    requires PrintArgs(xs, j) == PrintArgs(xs, k)
    ensures j == k
    decreases xs
  {
    match xs
    case NoArgs =>
    case MoreArgs(_, x, NoArgs) => Cancel(x, j, k);
    case MoreArgs(_, x, MoreArgs(id, y, ys)) =>
      var others := MoreArgs(id, y, ys);
      Cancel(x, Next(Sym(Comma), PrintArgs(others, j)), Next(Sym(Comma), PrintArgs(others, k)));
      CancelArgs(others, j, k);
  }

  // ----- What is printed is read back -----

  lemma {:induction false} OperandTail(o: Expr, k: Tokens)
    requires IsOperand(o)
    ensures Tail(o, k) == k
    decreases o
  {
    if !o.par && (o.body.Prefix? || o.body.AwaitOf?) { OperandTail(o.body.arg, k); }
  }

  lemma {:induction false} OperandReadsBack(o: Expr, k: Tokens, g: bool)
    requires Obeys(o, g) && IsOperand(o)
    ensures ParseOperand(Print(o, k), g) == Ok(o, k)
  {
    OperandReads(o, k, g);
    OperandIsFirst(o, 0);
    OperandTail(o, k);
  }

  lemma {:induction false} ItemReadsBack(it: Item, k: Tokens, g: bool)
    requires ItemObeys(it, g)
    ensures ParseItem(PrintItem(it, k), g) == Ok(it, k)
  {
    match it
    case PropItem(_) =>
    case StepItem(_) =>
    case IndexItem(x) =>
      PrintParse(x, Next(Sym(RBrack), k), g);
      IndexReads(Print(x, Next(Sym(RBrack), k)), x, k, g);
    case CallItem(args) =>
      ArgsRead(args, k, g);
      CallReads(PrintArgs(args, Next(Sym(RPar), k)), args, k, g);
    case BinaryItem(op, x) => BinaryKind(op); InfixReadsBack(op, x, k, g);
    case AssignItem(op, x) => AssignKind(op); InfixReadsBack(op, x, k, g);
    case CondItem(t, x) => CondReadsBack(t, x, k, g);
  }

  lemma {:induction false} InfixReadsBack(op: Op, x: Expr, k: Tokens, g: bool)
    requires (IsBinary(op) || IsAssign(op)) && Obeys(x, g) && IsOperand(x)
    ensures
      ParseItem(Next(Sym(op), Print(x, k)), g) == Ok(if IsBinary(op) then BinaryItem(op, x) else AssignItem(op, x), k)
  {
    OperandReadsBack(x, k, g);
    InfixReads(op, Print(x, k), x, k, g);
  }

  lemma {:induction false} CondReadsBack(t: Expr, x: Expr, k: Tokens, g: bool)
    requires Obeys(t, g) && Obeys(x, g) && IsOperand(x)
    ensures ParseItem(PrintItem(CondItem(t, x), k), g) == Ok(CondItem(t, x), k)
  {
    OperandReadsBack(x, k, g);
    PrintParse(t, Next(Sym(Colon), Print(x, k)), g);
    CondReads(Print(t, Next(Sym(Colon), Print(x, k))), t, Print(x, k), x, k, g);
  }

  // What is inserted into a tree goes behind its tokens.
  lemma {:induction false} ItemsAreBehind(e: Expr, ts: Tokens, g: bool) returns (k: Tokens)
    requires WrapAll(e, ts, g).Ok?
    ensures Print(WrapAll(e, ts, g).value, WrapAll(e, ts, g).rest) == Print(e, k)
    decreases Len(ts)
  {
    var it := ParseItem(ts, g);
    k := ts;
    if it.Ok? {
      var e1 := Insert(e, it.value, g).value;
      k := ItemsAreBehind(e1, it.rest, g);
      InsertPrints(e, it.value, k, g);
      k := PrintItem(it.value, k);
    }
  }

  // ----- Printing gives back the tokens if and only if they are neat -----

  lemma {:induction false} NeatExprs(ts: Tokens, g: bool)
    requires ParseExpr(ts, g).Ok?
    ensures ts == Print(ParseExpr(ts, g).value, ParseExpr(ts, g).rest) <==> Neat(ts, g)
    decreases Len(ts), 2
  {
    var o := ParseOperand(ts, g);
    var w := WrapAll(o.value, o.rest, g);
    NeatOperands(ts, g);
    NeatAllItems(o.value, o.rest, g);
    if ts == Print(w.value, w.rest) {
      var k := ItemsAreBehind(o.value, o.rest, g);
      ParseOperandObeys(ts, g);
      OperandReadsBack(o.value, k, g);
    }
  }

  lemma {:induction false} NeatOperands(ts: Tokens, g: bool)
    requires ParseOperand(ts, g).Ok?
    ensures ts == Print(ParseOperand(ts, g).value, ParseOperand(ts, g).rest) <==> NeatOperand(ts, g)
    decreases Len(ts), 1
  {
    if ts.tok.Sym? {
      var op := ts.tok.op;
      if op.Await? || IsPrefix(op) {
        NeatOperands(ts.rest, g);
      } else if op.LBrack? {
        NeatLists(ts.rest, g);
      } else if op.LPar? {
        NeatParens(ts.rest, g);
      }
    }
  }

  lemma {:induction false} NeatParens(ts: Tokens, g: bool)
    requires ParenOf(ParseExpr(ts, g), ts).Ok?
    ensures
      var r := ParenOf(ParseExpr(ts, g), ts);
      Next(Sym(LPar), ts) == Print(r.value, r.rest) <==> !Doubled(ts, g) && Neat(ts, g)
    decreases Len(ts), 3
  {
    var x, end := ParseExpr(ts, g).value, ParseExpr(ts, g).rest;
    NeatExprs(ts, g);
    DoubledIsPar(ts, g);
    if ts == Print(Expr(x.body, false), end) {
      ParseExprObeys(ts, g);
      PrintParse(Expr(x.body, false), end, g);
    }
  }

  lemma OperandIsPar(ts: Tokens, g: bool)
    requires ParseOperand(ts, g).Ok?
    ensures ParseOperand(ts, g).value.par <==> Starts(ts, LPar)
  {
  }

  lemma DoubledIsPar(ts: Tokens, g: bool)
    requires ParseExpr(ts, g).Ok? && Starts(ParseExpr(ts, g).rest, RPar)
    ensures ParseExpr(ts, g).value.par <==> Doubled(ts, g)
  {
    var o := ParseOperand(ts, g);
    OperandIsPar(ts, g);
    if ParseItem(o.rest, g).Ok? {
      WrappedIsOpen(o.value, o.rest, g);
      assert !Starts(o.rest, RPar);
    } else {
      assert WrapAll(o.value, o.rest, g) == Ok(o.value, o.rest);
    }
  }

  lemma {:induction false} WrappedIsOpen(e: Expr, ts: Tokens, g: bool)
    requires WrapAll(e, ts, g).Ok? && (ParseItem(ts, g).Ok? || !e.par)
    ensures !WrapAll(e, ts, g).value.par
    decreases Len(ts)
  {
    var it := ParseItem(ts, g);
    if it.Ok? { WrappedIsOpen(Insert(e, it.value, g).value, it.rest, g); }
  }

  lemma ElementsBehind(k: Tokens, g: bool)
    requires ParseElements(SkipComma(k), g).Ok?
    requires
      var r := ParseElements(SkipComma(k), g);
      SkipComma(k) == PrintExprs(r.value, Next(Sym(RBrack), r.rest)) <==> NeatElements(SkipComma(k), g)
    ensures
      var r := ParseElements(SkipComma(k), g);
      k == MoreElements(r.value, r.rest) <==>
      Separated(k, RBrack) && NeatElements(SkipComma(k), g)
  {
  }

  lemma {:induction false} NeatLists(ts: Tokens, g: bool)
    requires ParseElements(ts, g).Ok?
    ensures
      var r := ParseElements(ts, g);
      ts == PrintExprs(r.value, Next(Sym(RBrack), r.rest)) <==> NeatElements(ts, g)
    decreases Len(ts), 3
  {
    var r := ParseElements(ts, g);
    if !Starts(ts, RBrack) {
      var x, k := ParseExpr(ts, g).value, ParseExpr(ts, g).rest;
      var k' := MoreElements(r.value.others, r.rest);
      NeatExprs(ts, g);
      NeatLists(SkipComma(k), g);
      ElementsBehind(k, g);
      BehindElement(x, r.value.others, r.rest);
      if ts == Print(x, k') { ReadsBefore(ts, k', g); }
    }
  }

  // A list that begins with the tokens of an expression, read as that one, ends
  // where the expression does.
  lemma ReadsBefore(ts: Tokens, k: Tokens, g: bool)
    requires ParseExpr(ts, g).Ok? && ts == Print(ParseExpr(ts, g).value, k) && Ends(k)
    ensures ParseExpr(ts, g).rest == k
  {
    ParseExprObeys(ts, g);
    PrintParse(ParseExpr(ts, g).value, k, g);
  }

  lemma ArgsBehind(k: Tokens, g: bool)
    requires ParseArgs(SkipComma(k), g).Ok?
    requires
      var r := ParseArgs(SkipComma(k), g);
      SkipComma(k) == PrintArgs(r.value, Next(Sym(RPar), r.rest)) <==> NeatArgs(SkipComma(k), g)
    ensures
      var r := ParseArgs(SkipComma(k), g);
      k == MoreArguments(r.value, r.rest) <==> Separated(k, RPar) && NeatArgs(SkipComma(k), g)
  {
  }

  lemma NameIsPrinted(ts: Tokens, x: Expr, k: Tokens)
    ensures
      var id := if StartsNamed(ts) then Some(ts.tok.name) else None;
      ts == PrintArg(id, x, k) <==> SkipName(ts) == Print(x, k)
  {
  }

  lemma {:induction false} NeatArgLists(ts: Tokens, g: bool)
    requires ParseArgs(ts, g).Ok?
    ensures
      var r := ParseArgs(ts, g);
      ts == PrintArgs(r.value, Next(Sym(RPar), r.rest)) <==> NeatArgs(ts, g)
    decreases Len(ts), 3
  {
    var r := ParseArgs(ts, g);
    if !Starts(ts, RPar) {
      var from := SkipName(ts);
      var x, k := ParseExpr(from, g).value, ParseExpr(from, g).rest;
      var k' := MoreArguments(r.value.others, r.rest);
      NeatExprs(from, g);
      NeatArgLists(SkipComma(k), g);
      ArgsBehind(k, g);
      NameIsPrinted(ts, x, k');
      BehindArgument(r.value.id, x, r.value.others, r.rest);
      if from == Print(x, k') { ReadsBefore(from, k', g); }
    }
  }

  lemma {:induction false} NeatAllItems(e: Expr, ts: Tokens, g: bool)
    requires WrapAll(e, ts, g).Ok?
    ensures
      var w := WrapAll(e, ts, g);
      Print(e, ts) == Print(w.value, w.rest) <==> NeatItems(ts, g)
    decreases Len(ts), 1
  {
    var it := ParseItem(ts, g);
    if it.Ok? {
      var e1, w := Insert(e, it.value, g).value, WrapAll(e, ts, g);
      NeatOneItem(ts, g);
      NeatAllItems(e1, it.rest, g);
      InsertPrints(e, it.value, it.rest, g);
      if Print(e, ts) == Print(w.value, w.rest) {
        var k := ItemsAreBehind(e1, it.rest, g);
        InsertPrints(e, it.value, k, g);
        Cancel(e, ts, PrintItem(it.value, k));
        ParseItemObeys(ts, g);
        ItemReadsBack(it.value, k, g);
      }
    }
  }

  lemma {:induction false} NeatOneItem(ts: Tokens, g: bool)
    requires ParseItem(ts, g).Ok?
    ensures ts == PrintItem(ParseItem(ts, g).value, ParseItem(ts, g).rest) <==> NeatItem(ts, g)
    decreases Len(ts), 0
  {
    var op, it := ts.tok.op, ParseItem(ts, g);
    if op.LBrack? {
      NeatExprs(ts.rest, g);
    } else if op.LPar? {
      NeatArgLists(ts.rest, g);
    } else if op.Qn? {
      NeatConds(ts.rest, g);
    } else if IsBinary(op) || IsAssign(op) {
      NeatInfix(op, ts.rest, g);
      if IsBinary(op) { BinaryKind(op); } else { AssignKind(op); }
      assert ts == Next(Sym(op), ts.rest);
    }
  }

  lemma {:induction false} NeatInfix(op: Op, ts: Tokens, g: bool)
    requires (IsBinary(op) || IsAssign(op)) && ParseItem(Next(Sym(op), ts), g).Ok?
    ensures
      var it := ParseItem(Next(Sym(op), ts), g);
      Next(Sym(op), ts) == PrintItem(it.value, it.rest) <==> NeatOperand(ts, g)
    decreases Len(ts), 2
  {
    if IsBinary(op) { BinaryKind(op); } else { AssignKind(op); }
    NeatOperands(ts, g);
  }

  lemma {:induction false} NeatConds(ts: Tokens, g: bool)
    requires ParseCond(ts, g).Ok?
    ensures ParseExpr(ts, g).Ok? && Starts(ParseExpr(ts, g).rest, Colon)
    ensures
      var r := ParseCond(ts, g);
      r.value.CondItem? &&
      (ts == Print(r.value.thn, Next(Sym(Colon), Print(r.value.alt, r.rest))) <==>
       NeatCond(ts, g))
    decreases Len(ts), 4
  {
    var r := ParseCond(ts, g);
    var t, k := ParseExpr(ts, g).value, ParseExpr(ts, g).rest;
    NeatExprs(ts, g);
    NeatOperands(k.rest, g);
    if ts == Print(t, Next(Sym(Colon), Print(r.value.alt, r.rest))) {
      ParseExprObeys(ts, g);
      PrintParse(t, Next(Sym(Colon), Print(r.value.alt, r.rest)), g);
    }
  }
}
