/** What putting string literals next to each other does to the value of an
    expression. */
module ExprConcat {
  import opened Prelude
  import opened Parsing
  import opened ExprSyntax
  import opened ExprSpec
  import opened ExprShape
  import opened ExprSound

  predicate IsSum(e: Expr) { !e.par && e.body.Binary? && e.body.op.Plus? }

  // ----- Sums in left-associated form -----

  // `x op y`, where `x + (y1 + y2)` becomes `(x + y1) + y2`.
  function Chain(x: Expr, op: Op, y: Expr): (r: Expr)
    ensures !r.par && r.body.Binary? && r.body.op == op
    decreases y
  {
    if op.Plus? && IsSum(y) then Expr(Binary(Chain(x, Plus, y.body.left), Plus, y.body.right), false)
    else Expr(Binary(x, op, y), false)
  }

  function Flat(e: Expr): (r: Expr)
    ensures r.par == e.par && IsSum(r) == IsSum(e) && IsAccess(r) == IsAccess(e)
    decreases e, 0
  {
    Expr(FlatBody(e.body), e.par)
  }

  function FlatBody(b: Body): (r: Body)
    ensures b.Binary? <==> r.Binary?
    ensures b.Binary? ==> r.op == b.op
    ensures (b.Name? || b.DotName? || b.Prop? || b.Index?) <==> (r.Name? || r.DotName? || r.Prop? || r.Index?)
    decreases b, 0
  {
    match b
    case Name(_) => b
    case DotName(_) => b
    case Literal(_) => b
    case StrLit(_) => b
    case Prop(x, p) => Prop(Flat(x), p)
    case Index(x, y) => Index(Flat(x), Flat(y))
    case Array(xs) => Array(FlatAll(xs))
    case AwaitOf(x) => AwaitOf(Flat(x))
    case Prefix(op, x) => Prefix(op, Flat(x))
    case Postfix(x, op) => Postfix(Flat(x), op)
    case Binary(x, op, y) => Chain(Flat(x), op, Flat(y)).body
    case Assign(x, op, y) => Assign(Flat(x), op, Flat(y))
    case Cond(x, y, z) => Cond(Flat(x), Flat(y), Flat(z))
    case Call(x, args) => Call(Flat(x), FlatArgs(args))
  }

  function FlatAll(xs: Exprs): Exprs {
    match xs
    case NoExprs => NoExprs
    case MoreExprs(x, others) => MoreExprs(Flat(x), FlatAll(others))
  }

  function FlatArgs(xs: Args): Args {
    match xs
    case NoArgs => NoArgs
    case MoreArgs(id, x, others) => MoreArgs(id, Flat(x), FlatArgs(others))
  }

  function FlatItem(it: Item): Item {
    match it
    case PropItem(p) => it
    case IndexItem(x) => IndexItem(Flat(x))
    case CallItem(args) => CallItem(FlatArgs(args))
    case StepItem(op) => it
    case BinaryItem(op, x) => BinaryItem(op, Flat(x))
    case AssignItem(op, x) => AssignItem(op, Flat(x))
    case CondItem(t, x) => CondItem(Flat(t), Flat(x))
  }

  // ----- Literals are joined under `+` only -----

  // A bare sum on the right of `-`, `*`, `/` or `%`, and with `all` of `+` too:
  // two literals were joined behind that operator.
  predicate Displaced(b: Body, all: bool) {
    b.Binary? && IsSum(b.right) && (all || !b.op.Plus?) && Precedence(b.op, false) >= Precedence(Plus, false)
  }

  predicate Unjoined(e: Expr, all: bool)
    decreases e
  {
    !Displaced(e.body, all) &&
    match e.body
    case Name(_) => true
    case DotName(_) => true
    case Literal(_) => true
    case StrLit(_) => true
    case Prop(x, _) => Unjoined(x, all)
    case Index(x, y) => Unjoined(x, all) && Unjoined(y, all)
    case Array(xs) => AllUnjoined(xs, all)
    case AwaitOf(x) => Unjoined(x, all)
    case Prefix(_, x) => Unjoined(x, all)
    case Postfix(x, _) => Unjoined(x, all)
    case Binary(x, _, y) => Unjoined(x, all) && Unjoined(y, all)
    case Assign(x, _, y) => Unjoined(x, all) && Unjoined(y, all)
    case Cond(x, y, z) => Unjoined(x, all) && Unjoined(y, all) && Unjoined(z, all)
    case Call(x, args) => Unjoined(x, all) && ArgsUnjoined(args, all)
  }

  predicate AllUnjoined(xs: Exprs, all: bool)
    decreases xs
  {
    match xs
    case NoExprs => true
    case MoreExprs(x, others) => Unjoined(x, all) && AllUnjoined(others, all)
  }

  predicate ArgsUnjoined(xs: Args, all: bool)
    decreases xs
  {
    match xs
    case NoArgs => true
    case MoreArgs(_, x, others) => Unjoined(x, all) && ArgsUnjoined(others, all)
  }

  predicate ItemUnjoined(it: Item, all: bool) {
    match it
    case PropItem(_) => true
    case IndexItem(x) => Unjoined(x, all)
    case CallItem(args) => ArgsUnjoined(args, all)
    case StepItem(_) => true
    case BinaryItem(_, x) => Unjoined(x, all)
    case AssignItem(_, x) => Unjoined(x, all)
    case CondItem(t, x) => Unjoined(t, all) && Unjoined(x, all)
  }

  // ----- Inserting with and without regrouping -----

  lemma TightIsNoSum(y: Expr, lo: int)
    requires Tight(y, lo) && lo > Precedence(Plus, false)
    ensures !IsSum(y)
  {
  }

  lemma {:induction false} AttachKeepsDisplaced(e: Expr, it: Item, all: bool)
    requires Attach(e, it, true).Good? && Unjoined(Attach(e, it, true).value, all)
    ensures Unjoined(e, all) && ItemUnjoined(it, all)
  {
    if it.BinaryItem? && Joins(e, it.op, it.right) {
      assert Unjoined(Expr(Binary(e.body.right, it.op, it.right), false), all);
    }
  }

  // A node whose right operand is a sum before and after.
  lemma {:induction false} RightKeepsDisplaced(e: Expr, y1: Expr, all: bool)
    requires HasRight(e) && Unjoined(WithRight(e, y1), all) && Unjoined(Right(e), all)
    requires Displaced(e.body, all) ==> IsSum(y1)
    ensures Unjoined(e, all)
  {
  }

  // Insertion never undoes a join.
  lemma {:induction false} InsertKeepsDisplaced(e: Expr, it: Item, all: bool)
    requires Insert(e, it, true).Good? && Unjoined(Insert(e, it, true).value, all)
    ensures Unjoined(e, all) && ItemUnjoined(it, all)
    decreases e.body
  {
    if Descends(e, ItemPrecedence(it)) {
      var y1 := Insert(Right(e), it, true).value;
      RightIsUnjoined(e, y1, all);
      InsertKeepsDisplaced(Right(e), it, all);
      if Displaced(e.body, all) { InsertKeepsSum(e, it); }
      RightKeepsDisplaced(e, y1, all);
    } else {
      AttachKeepsDisplaced(e, it, all);
    }
  }

  lemma {:induction false} RightIsUnjoined(e: Expr, y1: Expr, all: bool)
    requires HasRight(e) && Unjoined(WithRight(e, y1), all)
    ensures Unjoined(y1, all)
  {
  }

  // A bare sum that an operator binding tighter than the node around it comes
  // behind stays a sum.
  lemma {:induction false} InsertKeepsSum(e: Expr, it: Item)
    requires Descends(e, ItemPrecedence(it)) && IsSum(Right(e)) && Insert(Right(e), it, true).Good?
    requires Displaced(e.body, true)
    ensures IsSum(Insert(Right(e), it, true).value)
  {
  }

  lemma {:induction false} WrapKeepsJoins(e: Expr, ts: Tokens, all: bool)
    requires WrapAll(e, ts, true).Ok? && Unjoined(WrapAll(e, ts, true).value, all)
    ensures Unjoined(e, all)
    decreases Len(ts)
  {
    var it := ParseItem(ts, true);
    if it.Ok? {
      WrapKeepsJoins(Insert(e, it.value, true).value, it.rest, all);
      InsertKeepsDisplaced(e, it.value, all);
    }
  }

  lemma JoinIsSum(e: Expr, o: Expr)
    requires Obeys(e, true) && Joins(e, Plus, o) && !Descends(e, Precedence(Plus, false))
    requires Unjoined(Attach(e, BinaryItem(Plus, o), true).value, false)
    ensures e.body.op.Plus?
  {
    assert IsBinary(e.body.op);
    assert IsSum(Expr(Binary(e.body.right, Plus, o), false));
  }

  lemma {:induction false} AttachFlat(e: Expr, it: Item)
    requires Obeys(e, true) && ItemObeys(it, true) && !Descends(e, ItemPrecedence(it))
    requires Attach(e, it, true).Good? && Unjoined(Attach(e, it, true).value, false)
    ensures Attach(Flat(e), FlatItem(it), false) == Good(Flat(Attach(e, it, true).value))
  {
    if it.BinaryItem? {
      OperandIsFirst(it.right, Precedence(Plus, false) + 1);
      TightIsNoSum(it.right, Precedence(Plus, false) + 1);
      if Joins(e, it.op, it.right) {
        JoinIsSum(e, it.right);
        JoinFlat(e, it.right);
      }
    }
  }

  lemma JoinFlat(e: Expr, o: Expr)
    requires Joins(e, Plus, o) && !IsSum(o) && e.body.op.Plus?
    ensures
      Flat(Expr(Binary(e.body.left, e.body.op, Expr(Binary(e.body.right, Plus, o), false)), false)) ==
      Expr(Binary(Flat(e), Plus, Flat(o)), false)
  {
    var s := e.body.right;
    var y := Expr(Binary(s, Plus, o), false);
    assert Flat(y) == Expr(Binary(Flat(s), Plus, Flat(o)), false);
    assert Chain(Flat(e.body.left), Plus, Flat(s)) == Flat(e);
  }

  lemma {:induction false} InsertFlat(e: Expr, it: Item)
    requires Obeys(e, true) && ItemObeys(it, true)
    requires Insert(e, it, true).Good? && Unjoined(Insert(e, it, true).value, false)
    ensures Insert(Flat(e), FlatItem(it), false) == Good(Flat(Insert(e, it, true).value))
    decreases e.body
  {
    assert ItemPrecedence(FlatItem(it)) == ItemPrecedence(it);
    DescendsFlat(e, ItemPrecedence(it));
    if !Descends(e, ItemPrecedence(it)) {
      AttachFlat(e, it);
    } else {
      var y := Right(e);
      var y1 := Insert(y, it, true).value;
      RightIsUnjoined(e, y1, false);
      if e.body.Binary? && !Tight(y, Floor(e.body)) {
        InsertFlatRegrouped(e, it);
      } else {
        InsertFlat(y, it);
        InsertKeepsTight(y, it, Floor(e.body), true);
        RightFlat(e, y1);
      }
    }
  }

  lemma DescendsFlat(e: Expr, p: int)
    ensures Descends(Flat(e), p) == Descends(e, p)
  {
  }

  lemma RightFlat(e: Expr, y: Expr)
    requires HasRight(e) && !e.par && Tight(Right(e), Floor(e.body)) && Tight(y, Floor(e.body))
    ensures HasRight(Flat(e)) && Flat(WithRight(e, y)) == WithRight(Flat(e), Flat(y))
    ensures Right(Flat(e)) == Flat(Right(e))
  {
    if e.body.Binary? && e.body.op.Plus? {
      TightIsNoSum(Right(e), Floor(e.body));
      TightIsNoSum(y, Floor(e.body));
    }
  }

  // Where two literals were joined behind `+`, and what is behind them.
  lemma RegroupedShape(e: Expr)
    requires e.body.Binary? && Obeys(e, true) && Unjoined(e, false) && !Tight(e.body.right, Floor(e.body))
    ensures Regrouped(e.body) && IsBinary(e.body.op) && e.body.op.Plus?
    ensures Obeys(e.body.right.body.right, true)
  {
  }

  lemma InsertTwice(e: Expr, it: Item)
    requires e.body.Binary? && e.body.right.body.Binary? && Insert(e, it, true).Good?
    requires Descends(e, ItemPrecedence(it)) && Descends(e.body.right, ItemPrecedence(it))
    ensures Insert(e.body.right.body.right, it, true).Good?
    ensures
      Insert(e, it, true) ==
      Good(WithRight(e, WithRight(e.body.right, Insert(e.body.right.body.right, it, true).value)))
  {
    assert Insert(e.body.right, it, true).Good?;
  }

  lemma {:induction false} InsertFlatRegrouped(e: Expr, it: Item)
    requires Obeys(e, true) && ItemObeys(it, true) && e.body.Binary? && !Tight(e.body.right, Floor(e.body))
    requires Descends(e, ItemPrecedence(it))
    requires Insert(e, it, true).Good? && Unjoined(Insert(e, it, true).value, false)
    ensures Insert(Flat(e), FlatItem(it), false) == Good(Flat(Insert(e, it, true).value))
    decreases e.body, 0
  {
    InsertKeepsDisplaced(e, it, false);
    RegroupedShape(e);
    DescendsTwice(e, ItemPrecedence(it));
    InsertTwice(e, it);
    var y := e.body.right;
    var r := y.body.right;
    var r1 := Insert(r, it, true).value;
    RightIsUnjoined(e, WithRight(y, r1), false);
    RightIsUnjoined(y, r1, false);
    InsertFlat(r, it);
    InsertKeepsTight(r, it, Floor(y.body), true);
    FlatOfRegrouped(e, r);
    FlatOfRegrouped(e, r1);
    InsertIntoSum(Flat(e), it, Flat(r1));
  }

  lemma InsertIntoSum(e: Expr, it: Item, r: Expr)
    requires IsSum(e) && ItemPrecedence(it) > Precedence(Plus, false)
    requires Insert(e.body.right, FlatItem(it), false) == Good(r)
    ensures Insert(e, FlatItem(it), false) == Good(Expr(Binary(e.body.left, Plus, r), false))
  {
    assert ItemPrecedence(FlatItem(it)) == ItemPrecedence(it);
  }

  // The left-associated form of `x + (s + r)`.
  lemma FlatOfRegrouped(e: Expr, r: Expr)
    requires IsSum(e) && IsSum(e.body.right) && IsStr(e.body.right.body.left) && !IsSum(r)
    ensures
      Flat(WithRight(e, WithRight(e.body.right, r))) ==
      Expr(Binary(Expr(Binary(Flat(e.body.left), Plus, Flat(e.body.right.body.left)), false), Plus, Flat(r)), false)
  {
    var y := WithRight(e.body.right, r);
    var s := e.body.right.body.left;
    assert Flat(y) == Expr(Binary(Flat(s), Plus, Flat(r)), false);
    assert Chain(Flat(e.body.left), Plus, Flat(s)) == Expr(Binary(Flat(e.body.left), Plus, Flat(s)), false);
    assert Flat(WithRight(e, y)) == Chain(Flat(e.body.left), Plus, Flat(y));
  }
}
