/** The operator tables and expression trees, with the printer. */
module ExprSyntax {
  import opened Prelude
  import opened Parsing

  // ----- Token::precedence and Token::associativity -----

  predicate IsBinary(op: Op) {
    op.Amp? || op.AmpAmp? || op.Caret? || op.EqEq? || op.ExclEq? || op.Gt? || op.GtEq? || op.LShift? ||
    op.Lt? || op.LtEq? || op.Minus? || op.Percent? || op.Pipe? || op.PipePipe? || op.Plus? || op.RShift? ||
    op.Slash? || op.Star?
  }

  predicate IsAssign(op: Op) {
    op.AmpEq? || op.AmpAmpEq? || op.CaretEq? || op.Eq? || op.LShiftEq? || op.MinusEq? || op.PercentEq? ||
    op.PipeEq? || op.PipePipeEq? || op.PlusEq? || op.RShiftEq? || op.SlashEq? || op.StarEq?
  }

  predicate IsPrefix(op: Op) {
    op.Excl? || op.Minus? || op.MinusMinus? || op.Plus? || op.PlusPlus? || op.Tilde?
  }

  predicate IsStep(op: Op) { op.MinusMinus? || op.PlusPlus? }

  // Operators that are not part of this model.
  predicate IsBeyond(op: Op) { op.LBrace? || op.As? || op.Is? }

  function Precedence(op: Op, unary: bool): int {
    if op.LPar? || op.RPar? then 18
    else if op.Dot? || op.LBrack? || op.RBrack? then 17
    else if IsStep(op) then 16
    else if op.Await? then 15
    else if unary && (op.Excl? || op.Minus? || op.Plus? || op.Tilde?) then 14
    else if op.Percent? || op.Slash? || op.Star? then 12
    else if op.Minus? || op.Plus? then 11
    else if op.LShift? || op.RShift? then 10
    else if op.Gt? || op.GtEq? || op.Lt? || op.LtEq? then 9
    else if op.EqEq? || op.ExclEq? then 8
    else if op.Amp? then 7
    else if op.Caret? then 6
    else if op.Pipe? then 5
    else if op.AmpAmp? then 4
    else if op.PipePipe? then 3
    else if IsAssign(op) || op.Colon? || op.Qn? then 2
    else 1
  }

  // What kind of operator one is.
  lemma BinaryKind(op: Op)
    requires IsBinary(op)
    ensures !op.Dot? && !op.LBrack? && !op.LPar? && !op.Qn? && !IsStep(op) && !IsAssign(op) && !IsBeyond(op)
    ensures 3 <= Precedence(op, false) <= 12
  {
  }

  lemma AssignKind(op: Op)
    requires IsAssign(op)
    ensures !op.Dot? && !op.LBrack? && !op.LPar? && !op.Qn? && !IsStep(op) && !IsBinary(op) && !IsBeyond(op)
    ensures Precedence(op, false) == 2
  {
  }

  lemma PrefixKind(op: Op)
    requires op.Await? || IsPrefix(op)
    ensures !op.Dot? && !op.LBrack? && !op.LPar? && 14 <= Precedence(op, true) <= 16
    ensures op.Await? ==> !IsPrefix(op) && !IsStep(op)
  {
  }

  // For the operators of binary and assignment nodes.
  predicate RightAssociative(op: Op) { IsAssign(op) }

  // ----- Trees -----

  datatype Expr = Expr(body: Body, par: bool)

  datatype Body =
    | Name(name: string)
    | DotName(name: string)
    | Prop(obj: Expr, prop: string)
    | Index(arr: Expr, elem: Expr)
    | Literal(text: string)
    | StrLit(text: string)
    | Array(elements: Exprs)
    | AwaitOf(arg: Expr)
    | Prefix(op: Op, arg: Expr)
    | Postfix(arg: Expr, op: Op)
    | Binary(left: Expr, op: Op, right: Expr)
    | Assign(left: Expr, op: Op, right: Expr)
    | Cond(cond: Expr, thn: Expr, alt: Expr)
    | Call(callee: Expr, args: Args)

  datatype Exprs = NoExprs | MoreExprs(first: Expr, others: Exprs)

  datatype Args = NoArgs | MoreArgs(id: Option<string>, arg: Expr, others: Args)

  // `ParserExprAccess`.
  predicate IsAccess(e: Expr) { e.body.Name? || e.body.DotName? || e.body.Prop? || e.body.Index? }

  predicate IsStr(e: Expr) { e.body.StrLit? }

  // ----- ParserStmtExpr::stringify, as tokens in front of `k` -----

  function Print(e: Expr, k: Tokens): Tokens
    decreases e, 0
  {
    if e.par then Next(Sym(LPar), PrintBody(e.body, Next(Sym(RPar), k))) else PrintBody(e.body, k)
  }

  function PrintBody(b: Body, k: Tokens): Tokens
    decreases b, 0
  {
    match b
    case Name(x) => Next(Id(x), k)
    case DotName(x) => Next(Sym(Dot), Next(Id(x), k))
    case Literal(x) => Next(Lit(x), k)
    case StrLit(x) => Next(Str(x), k)
    case Prop(x, p) => Print(x, Next(Sym(Dot), Next(Id(p), k)))
    case Index(x, y) => Print(x, Next(Sym(LBrack), Print(y, Next(Sym(RBrack), k))))
    case Array(xs) => Next(Sym(LBrack), PrintExprs(xs, Next(Sym(RBrack), k)))
    case AwaitOf(x) => Next(Sym(Await), Print(x, k))
    case Prefix(op, x) => Next(Sym(op), Print(x, k))
    case Postfix(x, op) => Print(x, Next(Sym(op), k))
    case Binary(x, op, y) => Print(x, Next(Sym(op), Print(y, k)))
    case Assign(x, op, y) => Print(x, Next(Sym(op), Print(y, k)))
    case Cond(x, y, z) => Print(x, Next(Sym(Qn), Print(y, Next(Sym(Colon), Print(z, k)))))
    case Call(x, args) => Print(x, Next(Sym(LPar), PrintArgs(args, Next(Sym(RPar), k))))
  }

  function PrintExprs(xs: Exprs, k: Tokens): Tokens
    decreases xs, 0
  {
    match xs
    case NoExprs => k
    case MoreExprs(x, NoExprs) => Print(x, k)
    case MoreExprs(x, others) => Print(x, Next(Sym(Comma), PrintExprs(others, k)))
  }

  function PrintArg(id: Option<string>, x: Expr, k: Tokens): Tokens
    decreases x, 1
  {
    if id.Some? then Next(Id(id.value), Next(Sym(Colon), Print(x, k))) else Print(x, k)
  }

  function PrintArgs(xs: Args, k: Tokens): Tokens
    decreases xs, 0
  {
    match xs
    case NoArgs => k
    case MoreArgs(id, x, NoArgs) => PrintArg(id, x, k)
    case MoreArgs(id, x, others) => PrintArg(id, x, Next(Sym(Comma), PrintArgs(others, k)))
  }
}
