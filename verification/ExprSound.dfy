/** Every tree the parser builds obeys the tables: insertion into the right
    spine keeps the order of binding. */
module ExprSound {
  import opened Prelude
  import opened Parsing
  import opened ExprSyntax
  import opened ExprSpec
  import opened ExprShape
  import opened ExprRound

  // What `_stmtExpr(false)` returns: nothing has been inserted yet.
  predicate IsOperand(e: Expr)
    decreases e
  {
    !HasLeft(e) && (!e.par && (e.body.Prefix? || e.body.AwaitOf?) ==> IsOperand(e.body.arg))
  }

  predicate ItemObeys(it: Item, g: bool) {
    match it
    case PropItem(_) => true
    case IndexItem(x) => Obeys(x, g)
    case CallItem(args) => ObeyArgs(args, g)
    case StepItem(op) => IsStep(op)
    case BinaryItem(op, x) => IsBinary(op) && Obeys(x, g) && IsOperand(x)
    case AssignItem(op, x) => IsAssign(op) && Obeys(x, g) && IsOperand(x)
    case CondItem(t, x) => Obeys(t, g) && Obeys(x, g) && IsOperand(x)
  }

  lemma {:induction false} OperandIsFirst(o: Expr, lo: int)
    requires IsOperand(o)
    ensures First(o) == o && Tight(o, lo)
    decreases o
  {
    if !o.par && (o.body.Prefix? || o.body.AwaitOf?) { OperandIsFirst(o.body.arg, lo); }
  }

  lemma {:induction false} InsertKeepsFirst(e: Expr, it: Item, g: bool)
    requires Insert(e, it, g).Good?
    ensures First(Insert(e, it, g).value) == First(e)
    decreases e.body
  {
    if Descends(e, ItemPrecedence(it)) {
      InsertKeepsFirst(Right(e), it, g);
      FirstOfRight(e, Insert(Right(e), it, g).value);
    } else {
      AttachKeepsFirst(e, it, g);
    }
  }

  lemma FirstOfRight(e: Expr, y: Expr)
    requires HasRight(e) && !e.par && First(y) == First(Right(e))
    ensures First(WithRight(e, y)) == First(e)
  {
  }

  lemma AttachKeepsFirst(e: Expr, it: Item, g: bool)
    requires Attach(e, it, g).Good?
    ensures First(Attach(e, it, g).value) == First(e)
  {
    if it.BinaryItem? && g && Joins(e, it.op, it.right) { FirstOfRight(e, Right(Attach(e, it, g).value)); }
  }

  lemma {:induction false} InsertKeepsTight(e: Expr, it: Item, lo: int, g: bool)
    requires ItemObeys(it, g) && Insert(e, it, g).Good?
    requires Tight(e, lo) && ItemPrecedence(it) >= lo
    ensures Tight(Insert(e, it, g).value, lo)
    decreases e.body
  {
    if Descends(e, ItemPrecedence(it)) {
      InsertKeepsTight(Right(e), it, lo, g);
    } else if it.BinaryItem? || it.AssignItem? {
      OperandIsFirst(it.right, lo);
    } else if it.CondItem? {
      OperandIsFirst(it.alt, lo);
    }
  }

  lemma {:induction false} AttachKeepsObeys(e: Expr, it: Item, g: bool)
    requires Obeys(e, g) && ItemObeys(it, g) && !Descends(e, ItemPrecedence(it)) && Attach(e, it, g).Good?
    ensures Obeys(Attach(e, it, g).value, g)
  {
    if it.BinaryItem? {
      AttachBinaryObeys(e, it.op, it.right, g);
    } else if it.AssignItem? {
      OperandIsFirst(it.right, Precedence(it.op, false));
    } else if it.CondItem? {
      OperandIsFirst(it.alt, Precedence(Qn, false));
    }
  }

  lemma {:induction false} AttachBinaryObeys(e: Expr, op: Op, x: Expr, g: bool)
    requires Obeys(e, g) && IsBinary(op) && Obeys(x, g) && IsOperand(x) && !Descends(e, Precedence(op, false))
    ensures var r := Attach(e, BinaryItem(op, x), g); r.Good? && Obeys(r.value, g)
  {
    if g && Joins(e, op, x) {
      JoinKeepsObeys(e, x);
    } else {
      OperandIsFirst(x, Precedence(op, false) + 1);
      NodeObeys(e, op, x, g);
    }
  }

  lemma NodeObeys(e: Expr, op: Op, x: Expr, g: bool)
    requires Obeys(e, g) && IsBinary(op) && !Descends(e, Precedence(op, false)) && Obeys(x, g)
    requires !(g && Joins(e, op, x)) && First(x) == x && Tight(x, Precedence(op, false) + 1)
    ensures Obeys(Expr(Binary(e, op, x), false), g)
  {
    BinaryKind(op);
    assert Floor(Binary(e, op, x)) == Precedence(op, false) + 1;
  }

  lemma {:induction false} JoinKeepsObeys(e: Expr, o: Expr)
    requires Obeys(e, true) && Joins(e, Plus, o) && !Descends(e, Precedence(Plus, false))
    requires Obeys(o, true) && IsOperand(o)
    ensures Obeys(Expr(Binary(e.body.left, e.body.op, Expr(Binary(e.body.right, Plus, o), false)), false), true)
  {
    var x, op, s := e.body.left, e.body.op, e.body.right;
    var y := Expr(Binary(s, Plus, o), false);
    OperandIsFirst(o, Precedence(op, false) + 1);
    OperandIsFirst(o, Precedence(Plus, false) + 1);
    assert Obeys(y, true);
    assert First(y) == First(s);
    assert Regrouped(Binary(x, op, y));
  }

  lemma {:induction false} InsertKeepsObeys(e: Expr, it: Item, g: bool)
    requires Obeys(e, g) && ItemObeys(it, g) && Insert(e, it, g).Good?
    ensures Obeys(Insert(e, it, g).value, g)
    decreases e.body
  {
    if !Descends(e, ItemPrecedence(it)) {
      AttachKeepsObeys(e, it, g);
    } else {
      var y := Right(e);
      InsertKeepsObeys(y, it, g);
      InsertKeepsFirst(y, it, g);
      if Tight(y, Floor(e.body)) {
        InsertKeepsTight(y, it, Floor(e.body), g);
      } else {
        InsertKeepsRegrouped(e, it);
      }
      WithRightObeys(e, Insert(y, it, g).value, g);
    }
  }

  lemma WithRightObeys(e: Expr, y: Expr, g: bool)
    requires HasRight(e) && Obeys(e, g) && Obeys(y, g) && First(y) == First(Right(e))
    requires Tight(y, Floor(e.body)) || (g && e.body.Binary? && Regrouped(WithRight(e, y).body))
    ensures Obeys(WithRight(e, y), g)
  {
    var e1 := WithRight(e, y);
    assert Floor(e1.body) == Floor(e.body);
  }

  // An operator that goes into a regrouped sum goes into its second literal.
  lemma {:induction false} InsertKeepsRegrouped(e: Expr, it: Item)
    requires e.body.Binary? && !e.par && Regrouped(e.body) && Obeys(e, true) && ItemObeys(it, true)
    requires Descends(e, ItemPrecedence(it)) && Insert(e, it, true).Good?
    ensures Regrouped(Insert(e, it, true).value.body)
  {
    var y := e.body.right;
    var r := y.body.right;
    DescendsTwice(e, ItemPrecedence(it));
    var r1 := Insert(r, it, true).value;
    assert Insert(y, it, true) == Good(WithRight(y, r1));
    assert Insert(e, it, true) == Good(WithRight(e, WithRight(y, r1)));
    InsertKeepsFirst(r, it, true);
    InsertKeepsTight(r, it, Floor(e.body), true);
    InsertKeepsTight(r, it, Floor(y.body), true);
    RegroupedAgain(e, r1);
  }

  lemma RegroupedAgain(e: Expr, r: Expr)
    requires e.body.Binary? && Regrouped(e.body) && First(r) == First(e.body.right.body.right)
    requires Tight(r, Floor(e.body)) && Tight(r, Floor(e.body.right.body))
    ensures Regrouped(WithRight(e, WithRight(e.body.right, r)).body)
  {
    var y := WithRight(e.body.right, r);
    assert y == Expr(Binary(e.body.right.body.left, Plus, r), false);
    assert WithRight(e, y).body == Binary(e.body.left, e.body.op, y);
    SameFloor(e.body, Binary(e.body.left, e.body.op, y));
    SameFloor(e.body.right.body, y.body);
  }

  lemma SameFloor(b: Body, b': Body)
    requires b.Binary? && b'.Binary? && b'.op == b.op
    ensures Floor(b') == Floor(b)
  {
  }

  lemma DescendsTwice(e: Expr, p: int)
    requires e.body.Binary? && Regrouped(e.body) && IsBinary(e.body.op) && Descends(e, p)
    ensures p >= Floor(e.body) && Descends(e.body.right, p) && p >= Floor(e.body.right.body)
  {
  }

  lemma {:induction false} ParseExprObeys(ts: Tokens, g: bool)
    requires ParseExpr(ts, g).Ok?
    ensures Obeys(ParseExpr(ts, g).value, g)
    decreases Len(ts), 2
  {
    var o := ParseOperand(ts, g);
    ParseOperandObeys(ts, g);
    WrapAllObeys(o.value, o.rest, g);
  }

  lemma {:induction false} ParseOperandObeys(ts: Tokens, g: bool)
    requires ParseOperand(ts, g).Ok?
    ensures Obeys(ParseOperand(ts, g).value, g) && IsOperand(ParseOperand(ts, g).value)
    decreases Len(ts), 1
  {
    if ts.tok.Sym? {
      var op, rest := ts.tok.op, ts.rest;
      if op.Await? || IsPrefix(op) {
        ParseOperandObeys(rest, g);
        PrefixObeys(op, ParseOperand(rest, g), g);
      } else if op.LBrack? {
        ParseElementsObey(rest, g);
      } else if op.LPar? {
        ParseExprObeys(rest, g);
      }
    }
  }

  lemma PrefixObeys(op: Op, r: Result<Expr>, g: bool)
    requires (op.Await? || IsPrefix(op)) && PrefixOf(op, r).Ok? && Obeys(r.value, g) && IsOperand(r.value)
    ensures Obeys(PrefixOf(op, r).value, g) && IsOperand(PrefixOf(op, r).value)
  {
    OperandIsFirst(r.value, Floor(PrefixOf(op, r).value.body));
  }

  lemma {:induction false} ParseElementsObey(ts: Tokens, g: bool)
    requires ParseElements(ts, g).Ok?
    ensures ObeyAll(ParseElements(ts, g).value, g)
    decreases Len(ts), 3
  {
    if !Starts(ts, RBrack) {
      ParseExprObeys(ts, g);
      ParseElementsObey(SkipComma(ParseExpr(ts, g).rest), g);
    }
  }

  lemma {:induction false} ParseArgsObey(ts: Tokens, g: bool)
    requires ParseArgs(ts, g).Ok?
    ensures ObeyArgs(ParseArgs(ts, g).value, g)
    decreases Len(ts), 3
  {
    if !Starts(ts, RPar) {
      var from := SkipName(ts);
      ParseExprObeys(from, g);
      ParseArgsObey(SkipComma(ParseExpr(from, g).rest), g);
    }
  }

  lemma {:induction false} ParseItemObeys(ts: Tokens, g: bool)
    requires ParseItem(ts, g).Ok?
    ensures ItemObeys(ParseItem(ts, g).value, g)
    decreases Len(ts), 0
  {
    var op := ts.tok.op;
    if op.LBrack? { ParseExprObeys(ts.rest, g); }
    else if op.LPar? { ParseArgsObey(ts.rest, g); }
    else if IsBinary(op) || IsAssign(op) { ParseOperandObeys(ts.rest, g); }
    else if op.Qn? {
      ParseExprObeys(ts.rest, g);
      ParseOperandObeys(ParseExpr(ts.rest, g).rest.rest, g);
    }
  }

  lemma {:induction false} WrapAllObeys(e: Expr, ts: Tokens, g: bool)
    requires Obeys(e, g) && WrapAll(e, ts, g).Ok?
    ensures Obeys(WrapAll(e, ts, g).value, g)
    decreases Len(ts), 1
  {
    var it := ParseItem(ts, g);
    if it.Ok? {
      ParseItemObeys(ts, g);
      InsertKeepsObeys(e, it.value, g);
      WrapAllObeys(Insert(e, it.value, g).value, it.rest, g);
    }
  }

  // The parser stops only where no operator follows.
  lemma {:induction false} WrapAllEnds(e: Expr, ts: Tokens, g: bool)
    requires WrapAll(e, ts, g).Ok?
    ensures Ends(WrapAll(e, ts, g).rest)
    decreases Len(ts)
  {
    var it := ParseItem(ts, g);
    if it.Ok? {
      WrapAllEnds(Insert(e, it.value, g).value, it.rest, g);
    } else {
      NoItemEnds(ts, g);
    }
  }

  lemma NoItemEnds(ts: Tokens, g: bool)
    requires ParseItem(ts, g).Null?
    ensures Ends(ts)
  {
    if Starts(ts, LPar) {
      ArgsNotNull(ts.rest, g);
    } else if Starts(ts, Qn) {
      CondNotNull(ts.rest, g);
    }
  }

  lemma {:induction false} ArgsNotNull(ts: Tokens, g: bool)
    ensures !ParseArgs(ts, g).Null?
    decreases Len(ts)
  {
    if !Starts(ts, RPar) && ParseExpr(SkipName(ts), g).Ok? {
      ArgsNotNull(SkipComma(ParseExpr(SkipName(ts), g).rest), g);
    }
  }

  lemma CondNotNull(ts: Tokens, g: bool)
    ensures !ParseCond(ts, g).Null?
  {
  }

  // ----- The theorems -----

  // parse(print(parse(ts))) == parse(ts), with or without regrouping.
  lemma ParsePrintParse(ts: Tokens, g: bool)
    requires ParseExpr(ts, g).Ok?
    ensures
      var r := ParseExpr(ts, g);
      ParseExpr(Print(r.value, r.rest), g) == r
  {
    var r := ParseExpr(ts, g);
    var o := ParseOperand(ts, g);
    ParseExprObeys(ts, g);
    WrapAllEnds(o.value, o.rest, g);
    PrintParse(r.value, r.rest, g);
  }

  predicate Builds(ts: Tokens, e: Expr, g: bool) { ParseExpr(ts, g).Ok? && ParseExpr(ts, g).value == e }

  // The trees the parser can build are exactly those that obey the tables.
  lemma ImageOfParser(e: Expr, g: bool)
    ensures Obeys(e, g) <==> exists ts :: Builds(ts, e, g)
  {
    if Obeys(e, g) {
      var ts := Print(e, Eof);
      PrintParse(e, Eof, g);
      assert Builds(ts, e, g);
    } else if ts :| Builds(ts, e, g) {
      ParseExprObeys(ts, g);
    }
  }

  // No other tree with the same tokens obeys the tables.
  lemma OneTreePerTokenList(e: Expr, e': Expr, k: Tokens, g: bool)
    requires Obeys(e, g) && Obeys(e', g) && Ends(k) && Print(e, k) == Print(e', k)
    ensures e == e'
  {
    PrintParse(e, k, g);
    PrintParse(e', k, g);
  }
}
