/** Which trees obey the operator tables. */
module ExprShape {
  import opened Prelude
  import opened Parsing
  import opened ExprSyntax
  import opened ExprSpec

  predicate HasLeft(e: Expr) {
    !e.par && (e.body.Prop? || e.body.Index? || e.body.Postfix? || e.body.Binary? || e.body.Assign? || e.body.Cond? ||
               e.body.Call?)
  }

  function Left(e: Expr): (l: Expr)
    requires HasLeft(e)
    ensures l.body < e.body
  {
    match e.body
    case Prop(x, _) => x
    case Index(x, _) => x
    case Postfix(x, _) => x
    case Binary(x, _, _) => x
    case Assign(x, _, _) => x
    case Cond(x, _, _) => x
    case Call(x, _) => x
  }

  // What `Print(e, k)` has after the left operand.
  function After(e: Expr, k: Tokens): (r: Tokens)
    requires HasLeft(e)
    ensures Print(e, k) == Print(Left(e), r)
  {
    match e.body
    case Prop(x, p) => Next(Sym(Dot), Next(Id(p), k))
    case Index(x, y) => Next(Sym(LBrack), Print(y, Next(Sym(RBrack), k)))
    case Postfix(x, op) => Next(Sym(op), k)
    case Binary(x, op, y) => Next(Sym(op), Print(y, k))
    case Assign(x, op, y) => Next(Sym(op), Print(y, k))
    case Cond(x, y, z) => Next(Sym(Qn), Print(y, Next(Sym(Colon), Print(z, k))))
    case Call(x, args) => Next(Sym(LPar), PrintArgs(args, Next(Sym(RPar), k)))
  }

  // The operand with which the source of `e` starts.
  function First(e: Expr): Expr
    decreases e.body
  {
    if HasLeft(e) then First(Left(e))
    else if !e.par && e.body.Prefix? then Expr(Prefix(e.body.op, First(e.body.arg)), false)
    else if !e.par && e.body.AwaitOf? then Expr(AwaitOf(First(e.body.arg)), false)
    else e
  }

  // What `Print(e, k)` has after that operand.
  function Tail(e: Expr, k: Tokens): Tokens
    decreases e.body
  {
    if HasLeft(e) then Tail(Left(e), After(e, k))
    else if !e.par && (e.body.Prefix? || e.body.AwaitOf?) then Tail(e.body.arg, k)
    else k
  }

  // The lowest precedence that goes into the right operand of `e`.
  function Floor(b: Body): int {
    match b
    case Assign(_, op, _) => Precedence(op, false) + if RightAssociative(op) then 0 else 1
    case Binary(_, op, _) => Precedence(op, false) + if RightAssociative(op) then 0 else 1
    case AwaitOf(_) => Precedence(Await, false) + 1
    case Cond(_, _, _) => Precedence(Qn, false)
    case Prefix(op, _) => Precedence(op, true) + 1
    case _ => 0
  }

  // Every operator of `e` outside brackets has precedence at least `lo`.
  predicate Tight(e: Expr, lo: int)
    decreases e
  {
    e.par ||
    match e.body
    case Prop(x, _) => Precedence(Dot, false) >= lo && Tight(x, lo)
    case Index(x, _) => Precedence(LBrack, false) >= lo && Tight(x, lo)
    case Call(x, _) => Precedence(LPar, false) >= lo && Tight(x, lo)
    case Postfix(x, op) => Precedence(op, true) >= lo && Tight(x, lo)
    case Binary(x, op, y) => Precedence(op, false) >= lo && Tight(x, lo) && Tight(y, lo)
    case Assign(x, op, y) => Precedence(op, false) >= lo && Tight(x, lo) && Tight(y, lo)
    case Cond(x, _, z) => Precedence(Qn, false) >= lo && Tight(x, lo) && Tight(z, lo)
    case AwaitOf(x) => Tight(x, lo)
    case Prefix(_, x) => Tight(x, lo)
    case _ => true
  }

  // The right operand that regrouping string literals leaves behind: the
  // operator binds tighter than `+`, or as tight, and yet has a sum on its
  // right that starts with two string literals.
  predicate Regrouped(b: Body)
    requires b.Binary?
  {
    var r := b.right;
    && Precedence(b.op, false) >= Precedence(Plus, false)
    && !r.par && r.body.Binary? && r.body.op.Plus?
    && IsStr(r.body.left) && IsStr(First(r.body.right))
    && Tight(r.body.right, Floor(b)) && Tight(r.body.right, Floor(r.body))
  }

  // `e` obeys the tables: an operator's left operand does not let it in, and
  // everything in its right operand binds tighter.  With `g`, string literals
  // next to each other under `+` are regrouped.
  predicate Obeys(e: Expr, g: bool)
    decreases e
  {
    match e.body
    case Name(_) => true
    case DotName(_) => true
    case Literal(_) => true
    case StrLit(_) => true
    case Array(xs) => ObeyAll(xs, g)
    case Prop(x, _) => Obeys(x, g) && !Descends(x, Precedence(Dot, false))
    case Index(x, y) => Obeys(x, g) && !Descends(x, Precedence(LBrack, false)) && Obeys(y, g)
    case Call(x, args) => Obeys(x, g) && !Descends(x, Precedence(LPar, false)) && ObeyArgs(args, g)
    case Postfix(x, op) => IsStep(op) && IsAccess(x) && Obeys(x, g) && !Descends(x, Precedence(op, true))
    case AwaitOf(x) => Obeys(x, g) && Tight(x, Floor(e.body))
    case Prefix(op, x) =>
      IsPrefix(op) && Obeys(x, g) && Tight(x, Floor(e.body)) && (IsStep(op) ==> IsAccess(First(x)))
    case Binary(x, op, y) =>
      && IsBinary(op) && Obeys(x, g) && !Descends(x, Precedence(op, false)) && Obeys(y, g)
      && !(g && Joins(x, op, First(y)))
      && (Tight(y, Floor(e.body)) || (g && Regrouped(e.body)))
    case Assign(x, op, y) =>
      IsAssign(op) && IsAccess(x) && Obeys(x, g) && !Descends(x, Precedence(op, false)) && Obeys(y, g) &&
      Tight(y, Floor(e.body))
    case Cond(x, y, z) =>
      Obeys(x, g) && !Descends(x, Precedence(Qn, false)) && Obeys(y, g) && Obeys(z, g) && Tight(z, Floor(e.body))
  }

  predicate ObeyAll(xs: Exprs, g: bool)
    decreases xs
  {
    match xs
    case NoExprs => true
    case MoreExprs(x, others) => Obeys(x, g) && ObeyAll(others, g)
  }

  predicate ObeyArgs(xs: Args, g: bool)
    decreases xs
  {
    match xs
    case NoArgs => true
    case MoreArgs(_, x, others) => Obeys(x, g) && ObeyArgs(others, g)
  }

  // The parser moves from `e`, with `ts` to read, to `e'`, with `ts'` to read,
  // by inserting operators of precedence at least `lo`.
  ghost predicate Steps(e: Expr, ts: Tokens, e': Expr, ts': Tokens, lo: int, g: bool)
    decreases Len(ts)
  {
    (e == e' && ts == ts') ||
    (var it := ParseItem(ts, g);
     it.Ok? && ItemPrecedence(it.value) >= lo &&
     var e1 := Insert(e, it.value, g);
     e1.Good? && Steps(e1.value, it.rest, e', ts', lo, g))
  }

  lemma {:induction false} StepsTrans(
    e: Expr, ts: Tokens, e1: Expr, ts1: Tokens, e2: Expr, ts2: Tokens, lo: int, g: bool)
    requires Steps(e, ts, e1, ts1, lo, g) && Steps(e1, ts1, e2, ts2, lo, g)
    ensures Steps(e, ts, e2, ts2, lo, g)
    decreases Len(ts)
  {
    if e != e1 || ts != ts1 {
      var it := ParseItem(ts, g);
      StepsTrans(Insert(e, it.value, g).value, it.rest, e1, ts1, e2, ts2, lo, g);
    }
  }

  lemma {:induction false} StepsLower(e: Expr, ts: Tokens, e': Expr, ts': Tokens, lo: int, lower: int, g: bool)
    requires Steps(e, ts, e', ts', lo, g) && lower <= lo
    ensures Steps(e, ts, e', ts', lower, g)
    decreases Len(ts)
  {
    if e != e' || ts != ts' {
      var it := ParseItem(ts, g);
      StepsLower(Insert(e, it.value, g).value, it.rest, e', ts', lo, lower, g);
    }
  }

  lemma RightBack(e: Expr, o: Expr)
    requires HasRight(e)
    ensures
      var e1 := WithRight(e, o);
      HasRight(e1) && !e1.par && Right(e1) == o && Floor(e1.body) == Floor(e.body) &&
      WithRight(e1, Right(e)) == WithRight(e, Right(e)) && (!e.par ==> WithRight(e, Right(e)) == e)
  {
  }

  lemma FloorDescends(e: Expr, p: int)
    requires HasRight(e) && !e.par && p >= Floor(e.body)
    ensures Descends(e, p)
  {
  }

  // Steps that all bind tighter than the operator of `e` happen in its right
  // operand.
  lemma {:induction false} StepsInRight(e: Expr, ts: Tokens, r: Expr, ts': Tokens, lo: int, g: bool)
    requires HasRight(e) && !e.par && lo >= Floor(e.body) && Steps(Right(e), ts, r, ts', lo, g)
    ensures Steps(e, ts, WithRight(e, r), ts', lo, g)
    decreases Len(ts)
  {
    if Right(e) == r && ts == ts' {
      assert WithRight(e, r) == e;
    } else {
      var it := ParseItem(ts, g);
      var r1 := Insert(Right(e), it.value, g).value;
      FloorDescends(e, ItemPrecedence(it.value));
      RightBack(e, r1);
      StepsInRight(WithRight(e, r1), it.rest, r, ts', lo, g);
    }
  }

  lemma {:induction false} StepsWrap(e: Expr, ts: Tokens, e': Expr, ts': Tokens, lo: int, g: bool)
    requires Steps(e, ts, e', ts', lo, g)
    ensures WrapAll(e, ts, g) == WrapAll(e', ts', g)
    decreases Len(ts)
  {
    if e != e' || ts != ts' {
      var it := ParseItem(ts, g);
      StepsWrap(Insert(e, it.value, g).value, it.rest, e', ts', lo, g);
    }
  }

  // Nothing at the front continues an expression.
  predicate Ends(k: Tokens) {
    k.Next? && k.tok.Sym? ==>
      var op := k.tok.op;
      !op.Dot? && !op.LBrack? && !op.LPar? && !IsStep(op) && !IsBinary(op) && !IsAssign(op) && !op.Qn? &&
      !IsBeyond(op)
  }
}
