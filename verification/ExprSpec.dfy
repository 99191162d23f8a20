/** The expression parser as functions on token lists.  Instead of textbook
    precedence climbing it reads one operand and then inserts every later
    operator into the right spine of the tree built so far. */
module ExprSpec {
  import opened Prelude
  import opened Parsing
  import opened ExprSyntax

  // ----- The right spine -----

  // Does `_wrapExpr` go on into the right operand of `e` for an operator of
  // precedence `p`?
  predicate Descends(e: Expr, p: int) {
    !e.par &&
    match e.body
    case Assign(_, op, _) => if Precedence(op, false) == p then RightAssociative(op) else Precedence(op, false) < p
    case Binary(_, op, _) => if Precedence(op, false) == p then RightAssociative(op) else Precedence(op, false) < p
    case AwaitOf(_) => Precedence(Await, false) < p
    case Cond(_, _, _) => Precedence(Qn, false) <= p
    case Prefix(op, _) => Precedence(op, true) < p
    case _ => false
  }

  predicate HasRight(e: Expr) {
    e.body.Assign? || e.body.Binary? || e.body.AwaitOf? || e.body.Cond? || e.body.Prefix?
  }

  function Right(e: Expr): (r: Expr)
    requires HasRight(e)
    ensures r.body < e.body
  {
    match e.body
    case Assign(_, _, r) => r
    case Binary(_, _, r) => r
    case AwaitOf(r) => r
    case Cond(_, _, r) => r
    case Prefix(_, r) => r
  }

  function WithRight(e: Expr, r: Expr): Expr
    requires HasRight(e)
  {
    match e.body
    case Assign(l, op, _) => Expr(Assign(l, op, r), false)
    case Binary(l, op, _) => Expr(Binary(l, op, r), false)
    case AwaitOf(_) => Expr(AwaitOf(r), false)
    case Cond(c, t, _) => Expr(Cond(c, t, r), false)
    case Prefix(op, _) => Expr(Prefix(op, r), false)
  }

  // What follows an operand: an operator with its own operands, if any.
  datatype Item =
    | PropItem(prop: string)
    | IndexItem(elem: Expr)
    | CallItem(args: Args)
    | StepItem(op: Op)
    | BinaryItem(op: Op, right: Expr)
    | AssignItem(op: Op, right: Expr)
    | CondItem(thn: Expr, alt: Expr)

  function ItemPrecedence(it: Item): int {
    match it
    case PropItem(_) => Precedence(Dot, false)
    case IndexItem(_) => Precedence(LBrack, false)
    case CallItem(_) => Precedence(LPar, false)
    case StepItem(op) => Precedence(op, true)
    case BinaryItem(op, _) => Precedence(op, false)
    case AssignItem(op, _) => Precedence(op, false)
    case CondItem(_, _) => Precedence(Qn, false)
  }

  // Two string literals that `+` would join: the new one is put next to the
  // right operand of the binary node it follows.
  predicate Joins(e: Expr, op: Op, right: Expr) {
    !e.par && e.body.Binary? && op.Plus? && IsStr(e.body.right) && IsStr(right)
  }

  // The callbacks `_wrapExprAccess`, `_wrapExprCall`, `_wrapExprUnary`,
  // `_wrapExprBinary`, `_wrapExprAssign`, `_wrapExprCond`.  Without `regroup`
  // string literals get no special treatment.
  function Attach(e: Expr, it: Item, regroup: bool): Outcome<Expr> {
    match it
    case PropItem(p) => Good(Expr(Prop(e, p), false))
    case IndexItem(x) => Good(Expr(Index(e, x), false))
    case CallItem(args) => Good(Expr(Call(e, args), false))
    case StepItem(op) => if IsAccess(e) then Good(Expr(Postfix(e, op), false)) else Bad(E0142)
    case BinaryItem(op, r) =>
      if regroup && Joins(e, op, r)
      then Good(Expr(Binary(e.body.left, e.body.op, Expr(Binary(e.body.right, op, r), false)), false))
      else Good(Expr(Binary(e, op, r), false))
    case AssignItem(op, r) => if IsAccess(e) then Good(Expr(Assign(e, op, r), false)) else Bad(E0140)
    case CondItem(t, a) => Good(Expr(Cond(e, t, a), false))
  }

  // `_wrapExpr`.
  function Insert(e: Expr, it: Item, regroup: bool): Outcome<Expr>
    decreases e.body
  {
    if Descends(e, ItemPrecedence(it)) then
      var r := Insert(Right(e), it, regroup);
      if r.Good? then Good(WithRight(e, r.value)) else r
    else Attach(e, it, regroup)
  }

  // ----- Reading -----

  // `_stmtExpr(true)`.
  function ParseExpr(ts: Tokens, g: bool): (r: Result<Expr>)
    ensures r.Ok? ==> ts.Next? && Len(r.rest) < Len(ts)
    decreases Len(ts), 2
  {
    var o := ParseOperand(ts, g);
    if o.Ok? then WrapAll(o.value, o.rest, g) else o
  }

  // `_stmtExpr(false)`.
  function ParseOperand(ts: Tokens, g: bool): (r: Result<Expr>)
    ensures r.Ok? ==> ts.Next? && Len(r.rest) < Len(ts)
    decreases Len(ts), 1
  {
    match ts
    case Eof => Null
    case Next(Id(x), rest) => Ok(Expr(Name(x), false), rest)
    case Next(Lit(x), rest) => Ok(Expr(Literal(x), false), rest)
    case Next(Str(x), rest) => Ok(Expr(StrLit(x), false), rest)
    case Next(Sym(op), rest) =>
      if op.Await? || IsPrefix(op) then PrefixOf(op, ParseOperand(rest, g))
      else if op.Dot? then
        if rest.Next? && rest.tok.Id? then Ok(Expr(DotName(rest.tok.name), false), rest.rest) else Fail(E0159)
      else if op.LBrack? then ArrayOf(ParseElements(rest, g))
      else if op.LPar? then ParenOf(ParseExpr(rest, g), rest)
      else if op.Ref? || op.LBrace? || (op.Async? && Starts(rest, LPar)) then Fail(Beyond)
      else Null
  }

  function PrefixOf(op: Op, r: Result<Expr>): Result<Expr> {
    match r
    case Ok(x, rest) =>
      if op.Await? then Ok(Expr(AwaitOf(x), false), rest)
      else if IsStep(op) && !IsAccess(x) then Fail(E0142)
      else Ok(Expr(Prefix(op, x), false), rest)
    case Null => Fail(if op.Await? then E0181 else E0132)
    case Fail(err) => Fail(err)
  }

  function ArrayOf(r: Result<Exprs>): Result<Expr> {
    match r
    case Ok(xs, rest) => Ok(Expr(Array(xs), false), rest)
    case Null => Null
    case Fail(err) => Fail(err)
  }

  // With `ts` behind the parenthesis: a parameter list starts with a name and a
  // colon or `:=`, with `mut`, or is empty and followed by an arrow.
  function ParenOf(r: Result<Expr>, ts: Tokens): Result<Expr> {
    match r
    case Ok(x, rest) =>
      if x.body.Name? && (Starts(rest, Colon) || Starts(rest, ColonEq)) then Fail(Beyond)
      else if Starts(rest, RPar) then Ok(Expr(x.body, true), rest.rest)
      else Fail(E0109)
    case Null =>
      if Starts(ts, Mut) || (Starts(ts, RPar) && Starts(ts.rest, Arrow)) then Fail(Beyond) else Fail(E0136)
    case Fail(err) => Fail(err)
  }

  // The elements of an array literal, up to and with the closing bracket.
  function ParseElements(ts: Tokens, g: bool): (r: Result<Exprs>)
    ensures r.Ok? ==> ts.Next? && Len(r.rest) < Len(ts)
    decreases Len(ts), 3
  {
    if Starts(ts, RBrack) then Ok(NoExprs, ts.rest)
    else
      match ParseExpr(ts, g)
      case Ok(x, rest) =>
        (match ParseElements(SkipComma(rest), g)
         case Ok(xs, rest1) => Ok(MoreExprs(x, xs), rest1)
         case Null => Null
         case Fail(err) => Fail(err))
      case Null => Fail(E0152)
      case Fail(err) => Fail(err)
  }

  predicate StartsNamed(ts: Tokens) { ts.Next? && ts.tok.Id? && Starts(ts.rest, Colon) }

  function SkipName(ts: Tokens): (r: Tokens)
    ensures Len(r) <= Len(ts)
  {
    if StartsNamed(ts) then assert Len(ts) == 2 + Len(ts.rest.rest); ts.rest.rest else ts
  }

  // The arguments of a call, up to and with the closing parenthesis.
  function ParseArgs(ts: Tokens, g: bool): (r: Result<Args>)
    ensures r.Ok? ==> ts.Next? && Len(r.rest) < Len(ts)
    decreases Len(ts), 3
  {
    if Starts(ts, RPar) then Ok(NoArgs, ts.rest)
    else
      var id := if StartsNamed(ts) then Some(ts.tok.name) else None;
      var from := SkipName(ts);
      match ParseExpr(from, g)
      case Ok(x, rest) =>
        (match ParseArgs(SkipComma(rest), g)
         case Ok(xs, rest1) => Ok(MoreArgs(id, x, xs), rest1)
         case Null => Null
         case Fail(err) => Fail(err))
      case Null => Fail(E0135)
      case Fail(err) => Fail(err)
  }

  // The operator at the front and its operands; `Null` when no operator of an
  // expression follows.
  function ParseItem(ts: Tokens, g: bool): (r: Result<Item>)
    ensures r.Ok? ==> ts.Next? && Len(r.rest) < Len(ts)
    decreases Len(ts), 0
  {
    if !ts.Next? || !ts.tok.Sym? then Null
    else if ts.tok.op.Dot? then
      if ts.rest.Next? && ts.rest.tok.Id? then Ok(PropItem(ts.rest.tok.name), ts.rest.rest) else Fail(E0110)
    else if ts.tok.op.LBrack? then IndexOf(ParseExpr(ts.rest, g))
    else if ts.tok.op.LPar? then CallOf(ParseArgs(ts.rest, g))
    else if IsStep(ts.tok.op) then Ok(StepItem(ts.tok.op), ts.rest)
    else if IsBinary(ts.tok.op) then BinaryOf(ts.tok.op, ParseOperand(ts.rest, g))
    else if IsAssign(ts.tok.op) then AssignOf(ts.tok.op, ParseOperand(ts.rest, g))
    else if ts.tok.op.Qn? then ParseCond(ts.rest, g)
    else if IsBeyond(ts.tok.op) then Fail(Beyond)
    else Null
  }

  function IndexOf(r: Result<Expr>): Result<Item> {
    match r
    case Ok(x, rest) => if Starts(rest, RBrack) then Ok(IndexItem(x), rest.rest) else Fail(E0151)
    case Null => Fail(E0150)
    case Fail(err) => Fail(err)
  }

  function CallOf(r: Result<Args>): Result<Item> {
    match r
    case Ok(args, rest) => Ok(CallItem(args), rest)
    case Null => Null
    case Fail(err) => Fail(err)
  }

  function BinaryOf(op: Op, r: Result<Expr>): Result<Item> {
    match r
    case Ok(x, rest) => Ok(BinaryItem(op, x), rest)
    case Null => Fail(E0137)
    case Fail(err) => Fail(err)
  }

  function AssignOf(op: Op, r: Result<Expr>): Result<Item> {
    match r
    case Ok(x, rest) => Ok(AssignItem(op, x), rest)
    case Null => Fail(E0133)
    case Fail(err) => Fail(err)
  }

  function CondOf(t: Expr, r: Result<Expr>): Result<Item> {
    match r
    case Ok(x, rest) => Ok(CondItem(t, x), rest)
    case Null => Fail(E0139)
    case Fail(err) => Fail(err)
  }

  function ParseCond(ts: Tokens, g: bool): (r: Result<Item>)
    ensures r.Ok? ==> ts.Next? && Len(r.rest) < Len(ts)
    decreases Len(ts), 4
  {
    match ParseExpr(ts, g)
    case Ok(x, rest) => if Starts(rest, Colon) then CondOf(x, ParseOperand(rest.rest, g)) else Fail(E0111)
    case Null => Fail(E0138)
    case Fail(err) => Fail(err)
  }

  // `_wrapStmtExpr`: insert every operator that follows.
  function WrapAll(e: Expr, ts: Tokens, g: bool): (r: Result<Expr>)
    ensures r.Ok? ==> Len(r.rest) <= Len(ts)
    ensures !r.Null?
    decreases Len(ts), 1
  {
    match ParseItem(ts, g)
    case Null => Ok(e, ts)
    case Fail(err) => Fail(err)
    case Ok(it, rest) =>
      match Insert(e, it, g)
      case Good(e1) => WrapAll(e1, rest, g)
      case Bad(err) => Fail(err)
  }
}
