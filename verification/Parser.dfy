/** The parser as it runs: methods that move the lexer's position, proved to
    compute the functions of ExprSpec and TypeSyntax. */
module ParserMethods {
  import opened Prelude
  import opened Parsing
  import opened ExprSyntax
  import opened ExprSpec
  import opened TypeSyntax

  // A method's outcome and the position it leaves, against a result of the
  // specification: `nullopt` leaves the lexer where it was.
  ghost predicate Meets<T>(r: Outcome<Option<T>>, to: Tokens, spec: Result<T>, from: Tokens) {
    match spec
    case Ok(v, k) => r == Good(Some(v)) && to == k
    case Null => r == Good(None) && to == from
    case Fail(err) => r == Bad(err)
  }

  // The same for an operator inserted into `e`.
  ghost predicate MeetsInsert(r: Outcome<Expr>, to: Tokens, spec: Outcome<Expr>, it: Result<Item>) {
    match it
    case Ok(_, k) => r == spec && to == k
    case Null => true
    case Fail(err) => r == Bad(err)
  }

  function InsertResult(e: Expr, it: Result<Item>): Outcome<Expr> {
    if it.Ok? then Insert(e, it.value, true) else Bad(E0137)
  }

  function AttachResult(e: Expr, it: Result<Item>): Outcome<Expr> {
    if it.Ok? then Attach(e, it.value, true) else Bad(E0137)
  }

  predicate IsOperator(op: Op) {
    op.Dot? || op.LBrack? || op.LPar? || IsStep(op) || IsBinary(op) || IsAssign(op) || op.Qn?
  }

  // What stands at the front decides what is read, and with which precedence.
  lemma BracketItem(op: Op, ts: Tokens)
    requires op.Dot? || op.LBrack? || op.LPar?
    requires ParseItem(Next(Sym(op), ts), true).Ok?
    ensures ItemPrecedence(ParseItem(Next(Sym(op), ts), true).value) == Precedence(op, false)
  {
  }

  function InfixOf(op: Op, o: Result<Expr>): Result<Item> {
    if IsBinary(op) then BinaryOf(op, o) else AssignOf(op, o)
  }

  lemma BinaryIsItem(op: Op, ts: Tokens)
    requires IsBinary(op)
    ensures ParseItem(Next(Sym(op), ts), true) == BinaryOf(op, ParseOperand(ts, true))
  {
    BinaryKind(op);
  }

  lemma AssignIsItem(op: Op, ts: Tokens)
    requires IsAssign(op)
    ensures ParseItem(Next(Sym(op), ts), true) == AssignOf(op, ParseOperand(ts, true))
  {
    AssignKind(op);
  }

  lemma InfixPrecedence(op: Op, o: Result<Expr>)
    requires (IsBinary(op) || IsAssign(op)) && InfixOf(op, o).Ok?
    ensures !IsStep(op) && ItemPrecedence(InfixOf(op, o).value) == Precedence(op, false)
  {
  }

  lemma StepIsItem(op: Op, ts: Tokens)
    requires IsStep(op)
    ensures ParseItem(Next(Sym(op), ts), true) == Ok(StepItem(op), ts)
  {
  }

  lemma CondIsItem(ts: Tokens)
    ensures ParseItem(Next(Sym(Qn), ts), true) == ParseCond(ts, true)
    ensures ParseCond(ts, true).Ok? ==> ParseCond(ts, true).value.CondItem?
  {
  }

  lemma ItemPrecedenceIs(op: Op, ts: Tokens)
    requires IsOperator(op) && ParseItem(Next(Sym(op), ts), true).Ok?
    ensures ItemPrecedence(ParseItem(Next(Sym(op), ts), true).value) == Precedence(op, IsStep(op))
  {
    if op.Dot? || op.LBrack? || op.LPar? {
      BracketItem(op, ts);
    } else if op.Qn? {
      CondIsItem(ts);
    } else if IsStep(op) {
      StepIsItem(op, ts);
    } else {
      if IsBinary(op) { BinaryIsItem(op, ts); } else { AssignIsItem(op, ts); }
      InfixPrecedence(op, ParseOperand(ts, true));
    }
  }

  // ----- Lists read so far -----

  function AppendExprs(xs: Exprs, ys: Exprs): Exprs {
    match xs
    case NoExprs => ys
    case MoreExprs(x, others) => MoreExprs(x, AppendExprs(others, ys))
  }

  function AppendArgs(xs: Args, ys: Args): Args {
    match xs
    case NoArgs => ys
    case MoreArgs(id, x, others) => MoreArgs(id, x, AppendArgs(others, ys))
  }

  function AfterExprs(xs: Exprs, r: Result<Exprs>): Result<Exprs> {
    if r.Ok? then Ok(AppendExprs(xs, r.value), r.rest) else r
  }

  function AfterArgs(xs: Args, r: Result<Args>): Result<Args> {
    if r.Ok? then Ok(AppendArgs(xs, r.value), r.rest) else r
  }

  lemma {:induction false} ExprsAssociate(xs: Exprs, ys: Exprs, zs: Exprs)
    ensures AppendExprs(AppendExprs(xs, ys), zs) == AppendExprs(xs, AppendExprs(ys, zs))
  {
    if xs.MoreExprs? { ExprsAssociate(xs.others, ys, zs); }
  }

  lemma {:induction false} ArgsAssociate(xs: Args, ys: Args, zs: Args)
    ensures AppendArgs(AppendArgs(xs, ys), zs) == AppendArgs(xs, AppendArgs(ys, zs))
  {
    if xs.MoreArgs? { ArgsAssociate(xs.others, ys, zs); }
  }

  lemma {:induction false} ExprsEnd(xs: Exprs)
    ensures AppendExprs(xs, NoExprs) == xs
  {
    if xs.MoreExprs? { ExprsEnd(xs.others); }
  }

  lemma {:induction false} ArgsEnd(xs: Args)
    ensures AppendArgs(xs, NoArgs) == xs
  {
    if xs.MoreArgs? { ArgsEnd(xs.others); }
  }

  // One more element: the rest of the list is read from where it ends.
  lemma NextElement(xs: Exprs, ts: Tokens)
    requires !Starts(ts, RBrack)
    ensures
      var x := ParseExpr(ts, true);
      AfterExprs(xs, ParseElements(ts, true)) ==
      if x.Ok? then AfterExprs(AppendExprs(xs, MoreExprs(x.value, NoExprs)), ParseElements(SkipComma(x.rest), true))
      else Fail(if x.Null? then E0152 else x.err)
  {
    var x := ParseExpr(ts, true);
    if x.Ok? {
      var r := ParseElements(SkipComma(x.rest), true);
      if r.Ok? { ExprsAssociate(xs, MoreExprs(x.value, NoExprs), r.value); }
    }
  }

  lemma NextArg(xs: Args, ts: Tokens)
    requires !Starts(ts, RPar)
    ensures
      var id := if StartsNamed(ts) then Some(ts.tok.name) else None;
      var x := ParseExpr(SkipName(ts), true);
      AfterArgs(xs, ParseArgs(ts, true)) ==
      if x.Ok? then AfterArgs(AppendArgs(xs, MoreArgs(id, x.value, NoArgs)), ParseArgs(SkipComma(x.rest), true))
      else Fail(if x.Null? then E0135 else x.err)
  {
    var id := if StartsNamed(ts) then Some(ts.tok.name) else None;
    var x := ParseExpr(SkipName(ts), true);
    if x.Ok? {
      var r := ParseArgs(SkipComma(x.rest), true);
      if r.Ok? { ArgsAssociate(xs, MoreArgs(id, x.value, NoArgs), r.value); }
    }
  }

  function AppendParams(xs: Params, ys: Params): Params {
    match xs
    case NoParams => ys
    case MoreParams(id, t, isMut, variadic, others) => MoreParams(id, t, isMut, variadic, AppendParams(others, ys))
  }

  function AfterParams(xs: Params, last: Option<Type>, r: Result<Listed>): Result<Listed> {
    if r.Ok? then
      Ok(Listed(AppendParams(xs, r.value.params), if r.value.last.None? then last else r.value.last, r.value.isArgs),
         r.rest)
    else r
  }

  lemma {:induction false} ParamsAssociate(xs: Params, ys: Params, zs: Params)
    ensures AppendParams(AppendParams(xs, ys), zs) == AppendParams(xs, AppendParams(ys, zs))
  {
    if xs.MoreParams? { ParamsAssociate(xs.others, ys, zs); }
  }

  lemma {:induction false} ParamsEnd(xs: Params)
    ensures AppendParams(xs, NoParams) == xs
  {
    if xs.MoreParams? { ParamsEnd(xs.others); }
  }

  function WithFirst(head: Head, t: Type, variadic: bool, r: Result<Listed>): Result<Listed> {
    match r
    case Null => Fail(E0118)
    case Fail(err) => Fail(err)
    case Ok(l, k) =>
      var last := if l.last.None? then Some(t) else l.last;
      Ok(Listed(MoreParams(head.id, t, head.isMut, variadic, l.params), last, l.isArgs), k)
  }

  lemma FirstIsRead(ts: Tokens, isArgs: bool, more: bool)
    requires !Starts(ts, RPar) && ParseHead(ts).Ok? && ParseType(ParseHead(ts).rest).Ok?
    ensures
      var head, t := ParseHead(ts).value, ParseType(ParseHead(ts).rest);
      var k := SkipEllipsis(t.rest);
      ParseParams(ts, isArgs, more) ==
      WithFirst(head, t.value, Starts(t.rest, Ellipsis),
                ParseParams(SkipComma(k), isArgs || head.id.Some? || Starts(k, Comma), true))
  {
  }

  // No more parameters: nothing has been read.
  lemma NoParam(xs: Params, last: Option<Type>, ts: Tokens, isArgs: bool)
    requires !Starts(ts, RPar)
    requires ParseHead(ts).Fail? || (ParseHead(ts).Ok? && !ParseType(ParseHead(ts).rest).Ok?)
    requires xs.NoParams? ==> last.None?
    ensures
      AfterParams(xs, last, ParseParams(ts, isArgs, xs.MoreParams?)) ==
      if ParseHead(ts).Fail? then Fail(ParseHead(ts).err)
      else if ParseType(ParseHead(ts).rest).Fail? then Fail(ParseType(ParseHead(ts).rest).err)
      else if isArgs || ParseHead(ts).value.id.Some? then Fail(E0118)
      else if xs.MoreParams? then Fail(E0127)
      else Ok(Listed(NoParams, None, false), ts)
  {
  }

  // One more parameter, once its type has been read.
  lemma NextParam(xs: Params, last: Option<Type>, ts: Tokens, isArgs: bool)
    requires !Starts(ts, RPar) && ParseHead(ts).Ok? && ParseType(ParseHead(ts).rest).Ok?
    ensures
      var head, t := ParseHead(ts).value, ParseType(ParseHead(ts).rest);
      var k := SkipEllipsis(t.rest);
      var one := MoreParams(head.id, t.value, head.isMut, Starts(t.rest, Ellipsis), NoParams);
      AfterParams(xs, last, ParseParams(ts, isArgs, xs.MoreParams?)) ==
      AfterParams(AppendParams(xs, one), Some(t.value),
                  ParseParams(SkipComma(k), isArgs || head.id.Some? || Starts(k, Comma), true))
  {
    var head, t := ParseHead(ts).value, ParseType(ParseHead(ts).rest);
    var k := SkipEllipsis(t.rest);
    FirstIsRead(ts, isArgs, xs.MoreParams?);
    AppendFirst(xs, last, head, t.value, Starts(t.rest, Ellipsis),
                ParseParams(SkipComma(k), isArgs || head.id.Some? || Starts(k, Comma), true));
  }

  lemma AppendFirst(xs: Params, last: Option<Type>, head: Head, t: Type, variadic: bool, r: Result<Listed>)
    requires !r.Null?
    ensures
      var one := MoreParams(head.id, t, head.isMut, variadic, NoParams);
      AfterParams(xs, last, WithFirst(head, t, variadic, r)) == AfterParams(AppendParams(xs, one), Some(t), r)
  {
    if r.Ok? { ParamsAssociate(xs, MoreParams(head.id, t, head.isMut, variadic, NoParams), r.value.params); }
  }

  class Parser {
    // What the lexer has still to deliver.
    var rest: Tokens

    constructor (source: Tokens)
      ensures rest == source
    {
      rest := source;
    }

    // `lexer->next`; None at the end of the file.
    method Read() returns (t: Option<Token>)
      modifies this
      ensures t == if old(rest).Next? then Some(old(rest).tok) else None
      ensures rest == if old(rest).Next? then old(rest).rest else Eof
    {
      match rest
      case Eof => t := None;
      case Next(tok, more) => t := Some(tok); rest := more;
    }

    // `lexer->seek`.
    method Seek(to: Tokens)
      modifies this
      ensures rest == to
    {
      rest := to;
    }

    // `_stmtExpr`.
    method StmtExpr(root: bool) returns (r: Outcome<Option<Expr>>)
      modifies this
      ensures Meets(r, rest, if root then ParseExpr(old(rest), true) else ParseOperand(old(rest), true), old(rest))
      decreases Len(rest), 1
    {
      ghost var from := rest;
      var operand := Operand();
      match operand
      case Bad(err) => r := Bad(err);
      case Good(None) => r := Good(None);
      case Good(Some(e)) =>
        if root {
          var w := WrapStmtExpr(e);
          match w
          case Good(e1) => r := Good(Some(e1));
          case Bad(err) => r := Bad(err);
        } else {
          r := Good(Some(e));
        }
    }

    // The branches of `_stmtExpr`, before the operators that follow.
    method Operand() returns (r: Outcome<Option<Expr>>)
      modifies this
      ensures Meets(r, rest, ParseOperand(old(rest), true), old(rest))
      decreases Len(rest), 0
    {
      var loc1 := rest;
      var tok1 := Read();
      match tok1
      case None =>
        Seek(loc1);
        r := Good(None);
      case Some(Id(x)) => r := Good(Some(Expr(Name(x), false)));
      case Some(Lit(x)) => r := Good(Some(Expr(Literal(x), false)));
      case Some(Str(x)) => r := Good(Some(Expr(StrLit(x), false)));
      case Some(Sym(op)) =>
        if op.Await? || IsPrefix(op) {
          r := PrefixOperator(op);
        } else if op.Dot? {
          var tok2 := Read();
          if tok2.Some? && tok2.value.Id? {
            r := Good(Some(Expr(DotName(tok2.value.name), false)));
          } else {
            r := Bad(E0159);
          }
        } else if op.LBrack? {
          r := ArrayLiteral();
        } else if op.LPar? {
          r := Parenthesised();
        } else if op.Ref? || op.LBrace? {
          r := Bad(Beyond);
        } else if op.Async? {
          var loc2 := rest;
          var tok2 := Read();
          Seek(loc1);
          r := if tok2 == Some(Sym(LPar)) then Bad(Beyond) else Good(None);
        } else {
          Seek(loc1);
          r := Good(None);
        }
    }

    method PrefixOperator(op: Op) returns (r: Outcome<Option<Expr>>)
      requires op.Await? || IsPrefix(op)
      modifies this
      ensures !PrefixOf(op, ParseOperand(old(rest), true)).Null?
      ensures Meets(r, rest, PrefixOf(op, ParseOperand(old(rest), true)), old(rest))
      decreases Len(rest), 2
    {
      var arg := StmtExpr(false);
      match arg
      case Bad(err) => r := Bad(err);
      case Good(None) => r := Bad(if op.Await? then E0181 else E0132);
      case Good(Some(x)) =>
        if op.Await? {
          r := Good(Some(Expr(AwaitOf(x), false)));
        } else if IsStep(op) && !IsAccess(x) {
          r := Bad(E0142);
        } else {
          r := Good(Some(Expr(Prefix(op, x), false)));
        }
    }

    method ArrayLiteral() returns (r: Outcome<Option<Expr>>)
      modifies this
      ensures
        match ParseElements(old(rest), true)
        case Ok(xs, k) => r == Good(Some(Expr(Array(xs), false))) && rest == k
        case Null => false
        case Fail(err) => r == Bad(err)
      decreases Len(rest), 2
    {
      ghost var from := rest;
      var loc2 := rest;
      var tok2 := Read();
      var elements := NoExprs;
      while tok2 != Some(Sym(RBrack))
        invariant tok2 == (if loc2.Next? then Some(loc2.tok) else None) && rest == if loc2.Next? then loc2.rest else Eof
        invariant Len(loc2) <= Len(from)
        invariant AfterExprs(elements, ParseElements(loc2, true)) == ParseElements(from, true)
        decreases Len(loc2)
      {
        Seek(loc2);
        NextElement(elements, loc2);
        var element := StmtExpr(true);
        match element {
          case Bad(err) => return Bad(err);
          case Good(None) => return Bad(E0152);
          case Good(Some(x)) =>
            elements := AppendExprs(elements, MoreExprs(x, NoExprs));
        }
        loc2 := rest;
        tok2 := Read();
        if tok2 == Some(Sym(Comma)) {
          loc2 := rest;
          tok2 := Read();
        }
      }
      ExprsEnd(elements);
      r := Good(Some(Expr(Array(elements), false)));
    }

    method Parenthesised() returns (r: Outcome<Option<Expr>>)
      modifies this
      ensures !ParenOf(ParseExpr(old(rest), true), old(rest)).Null?
      ensures Meets(r, rest, ParenOf(ParseExpr(old(rest), true), old(rest)), old(rest))
      decreases Len(rest), 2
    {
      var inner := StmtExpr(true);
      match inner
      case Bad(err) => r := Bad(err);
      case Good(None) =>
        var tok2 := Read();
        if tok2 == Some(Sym(Mut)) {
          r := Bad(Beyond);
        } else if tok2 == Some(Sym(RPar)) {
          var tok3 := Read();
          r := Bad(if tok3 == Some(Sym(Arrow)) then Beyond else E0136);
        } else {
          r := Bad(E0136);
        }
      case Good(Some(x)) =>
        var tok4 := Read();
        if x.body.Name? && (tok4 == Some(Sym(Colon)) || tok4 == Some(Sym(ColonEq))) {
          r := Bad(Beyond);
        } else if tok4 != Some(Sym(RPar)) {
          r := Bad(E0109);
        } else {
          r := Good(Some(Expr(x.body, true)));
        }
    }

    // `_wrapStmtExpr`.
    method WrapStmtExpr(e: Expr) returns (r: Outcome<Expr>)
      modifies this
      ensures
        match WrapAll(e, old(rest), true)
        case Ok(e1, k) => r == Good(e1) && rest == k
        case Null => false
        case Fail(err) => r == Bad(err)
      decreases Len(rest), 5
    {
      var loc := rest;
      var tok := Read();
      if tok.Some? && tok.value.Sym? && IsOperator(tok.value.op) {
        var op := tok.value.op;
        ghost var it := ParseItem(loc, true);
        var w := WrapExpr(e, op, Precedence(op, IsStep(op)));
        match w
        case Bad(err) => r := Bad(err);
        case Good(e1) => r := WrapStmtExpr(e1);
      } else if tok.Some? && tok.value.Sym? && IsBeyond(tok.value.op) {
        r := Bad(Beyond);
      } else {
        Seek(loc);
        r := Good(e);
      }
    }

    // `_wrapExpr`: down the right spine, then the operator's own callback.
    method WrapExpr(e: Expr, op: Op, precedence: int) returns (r: Outcome<Expr>)
      requires IsOperator(op) && precedence == Precedence(op, IsStep(op))
      modifies this
      ensures
        var it := ParseItem(Next(Sym(op), old(rest)), true);
        !it.Null? && MeetsInsert(r, rest, InsertResult(e, it), it)
      decreases Len(rest), 4, e.body
    {
      ghost var it := ParseItem(Next(Sym(op), rest), true);
      if it.Ok? { ItemPrecedenceIs(op, rest); }
      if Descends(e, precedence) {
        var w := WrapExpr(Right(e), op, precedence);
        match w
        case Bad(err) => r := Bad(err);
        case Good(y) => r := Good(WithRight(e, y));
      } else {
        r := Wrap(e, op);
      }
    }

    // The callback: `_wrapExprAccess`, `_wrapExprCall`, `_wrapExprUnary`,
    // `_wrapExprBinary`, `_wrapExprAssign` or `_wrapExprCond`.
    method Wrap(e: Expr, op: Op) returns (r: Outcome<Expr>)
      requires IsOperator(op)
      modifies this
      ensures
        var it := ParseItem(Next(Sym(op), old(rest)), true);
        !it.Null? && MeetsInsert(r, rest, AttachResult(e, it), it)
      decreases Len(rest), 3
    {
      if op.Dot? || op.LBrack? || op.LPar? {
        r := WrapBracket(e, op);
      } else if IsStep(op) {
        StepIsItem(op, rest);
        r := if IsAccess(e) then Good(Expr(Postfix(e, op), false)) else Bad(E0142);
      } else if IsBinary(op) {
        BinaryIsItem(op, rest);
        r := WrapBinary(e, op);
      } else if IsAssign(op) {
        AssignIsItem(op, rest);
        r := WrapAssign(e, op);
      } else {
        CondIsItem(rest);
        r := WrapCond(e);
      }
    }

    method WrapBracket(e: Expr, op: Op) returns (r: Outcome<Expr>)
      requires op.Dot? || op.LBrack? || op.LPar?
      modifies this
      ensures
        var it := ParseItem(Next(Sym(op), old(rest)), true);
        !it.Null? && MeetsInsert(r, rest, AttachResult(e, it), it)
      decreases Len(rest), 3, 0
    {
      if op.Dot? {
        var tok2 := Read();
        if tok2.Some? && tok2.value.Id? {
          r := Good(Expr(Prop(e, tok2.value.name), false));
        } else {
          r := Bad(E0110);
        }
      } else if op.LBrack? {
        r := WrapIndex(e);
      } else {
        r := WrapCall(e);
      }
    }

    method WrapIndex(e: Expr) returns (r: Outcome<Expr>)
      modifies this
      ensures
        var it := IndexOf(ParseExpr(old(rest), true));
        !it.Null? && MeetsInsert(r, rest, AttachResult(e, it), it)
      decreases Len(rest), 2
    {
      var elem := StmtExpr(true);
      match elem
      case Bad(err) => r := Bad(err);
      case Good(None) => r := Bad(E0150);
      case Good(Some(x)) =>
        var tok2 := Read();
        r := if tok2 == Some(Sym(RBrack)) then Good(Expr(Index(e, x), false)) else Bad(E0151);
    }

    method WrapCall(e: Expr) returns (r: Outcome<Expr>)
      modifies this
      ensures
        var it := CallOf(ParseArgs(old(rest), true));
        !it.Null? && MeetsInsert(r, rest, AttachResult(e, it), it)
      decreases Len(rest), 2
    {
      ghost var from := rest;
      var loc2 := rest;
      var tok2 := Read();
      var args := NoArgs;
      while tok2 != Some(Sym(RPar))
        invariant tok2 == (if loc2.Next? then Some(loc2.tok) else None) && rest == if loc2.Next? then loc2.rest else Eof
        invariant Len(loc2) <= Len(from)
        invariant AfterArgs(args, ParseArgs(loc2, true)) == ParseArgs(from, true)
        decreases Len(loc2)
      {
        NextArg(args, loc2);
        var id: Option<string> := None;
        if tok2.Some? && tok2.value.Id? {
          var tok3 := Read();
          if tok3 == Some(Sym(Colon)) { id := Some(tok2.value.name); }
        }
        if id.None? { Seek(loc2); }
        assert rest == SkipName(loc2);
        var arg := StmtExpr(true);
        match arg {
          case Bad(err) => return Bad(err);
          case Good(None) => return Bad(E0135);
          case Good(Some(x)) =>
            args := AppendArgs(args, MoreArgs(id, x, NoArgs));
        }
        loc2 := rest;
        tok2 := Read();
        if tok2 == Some(Sym(Comma)) {
          loc2 := rest;
          tok2 := Read();
        }
      }
      ArgsEnd(args);
      r := Good(Expr(Call(e, args), false));
    }

    method WrapBinary(e: Expr, op: Op) returns (r: Outcome<Expr>)
      requires IsBinary(op)
      modifies this
      ensures
        var it := BinaryOf(op, ParseOperand(old(rest), true));
        !it.Null? && MeetsInsert(r, rest, AttachResult(e, it), it)
      decreases Len(rest), 2
    {
      var right := StmtExpr(false);
      match right
      case Bad(err) => r := Bad(err);
      case Good(None) => r := Bad(E0137);
      case Good(Some(x)) =>
        if e.body.Binary? && !e.par && op.Plus? && IsStr(e.body.right) && IsStr(x) {
          var joined := Expr(Binary(e.body.right, op, x), false);
          r := Good(Expr(Binary(e.body.left, e.body.op, joined), false));
        } else {
          r := Good(Expr(Binary(e, op, x), false));
        }
    }

    method WrapAssign(e: Expr, op: Op) returns (r: Outcome<Expr>)
      requires IsAssign(op)
      modifies this
      ensures
        var it := AssignOf(op, ParseOperand(old(rest), true));
        !it.Null? && MeetsInsert(r, rest, AttachResult(e, it), it)
      decreases Len(rest), 2
    {
      var right := StmtExpr(false);
      match right
      case Bad(err) => r := Bad(err);
      case Good(None) => r := Bad(E0133);
      case Good(Some(x)) => r := if IsAccess(e) then Good(Expr(Assign(e, op, x), false)) else Bad(E0140);
    }

    method WrapCond(e: Expr) returns (r: Outcome<Expr>)
      modifies this
      ensures
        var it := ParseCond(old(rest), true);
        !it.Null? && MeetsInsert(r, rest, AttachResult(e, it), it)
      decreases Len(rest), 2
    {
      var body := StmtExpr(true);
      match body
      case Bad(err) => r := Bad(err);
      case Good(None) => r := Bad(E0138);
      case Good(Some(t)) =>
        var tok2 := Read();
        if tok2 != Some(Sym(Colon)) { return Bad(E0111); }
        var alt := StmtExpr(false);
        match alt
        case Bad(err) => r := Bad(err);
        case Good(None) => r := Bad(E0139);
        case Good(Some(x)) => r := Good(Expr(Cond(e, t, x), false));
    }

    // `_type`.
    method ReadType() returns (r: Outcome<Option<Type>>)
      modifies this
      ensures Meets(r, rest, ParseType(old(rest)), old(rest))
      decreases Len(rest), 0
    {
      var loc1 := rest;
      var tok1 := Read();
      if tok1 == Some(Sym(LPar)) {
        r := ReadParenthesised(loc1);
      } else if tok1.Some? && tok1.value.Id? {
        var w := WrapTypeRead(Type(TypeId(tok1.value.name), false));
        r := Found(w);
      } else if tok1 == Some(Sym(Async)) {
        var t := ReadType();
        match t
        case Bad(err) => r := Bad(err);
        case Good(None) => r := Bad(E0180);
        case Good(Some(fn)) =>
          if !fn.body.TypeFn? { return Bad(E0180); }
          var w := WrapTypeRead(Type(TypeFn(fn.body.params, fn.body.ret, true), false));
          r := Found(w);
      } else if tok1 == Some(Sym(Ref)) {
        var t := ReadType();
        match t
        case Bad(err) => r := Bad(err);
        case Good(None) => r := Bad(E0149);
        case Good(Some(to)) =>
          var w := WrapTypeRead(Type(TypeRef(to), false));
          r := Found(w);
      } else {
        Seek(loc1);
        r := Good(None);
      }
    }

    static function Found<T>(w: Outcome<T>): Outcome<Option<T>> {
      match w
      case Good(x) => Good(Some(x))
      case Bad(err) => Bad(err)
    }

    // The first branch of `_type`, after the parenthesis at `loc1`.
    method ReadParenthesised(loc1: Tokens) returns (r: Outcome<Option<Type>>)
      requires loc1 == Next(Sym(LPar), rest)
      modifies this
      ensures Meets(r, rest, ParseType(loc1), loc1)
      decreases Len(rest), 5
    {
      ghost var spec := ParseParams(rest, false, false);
      assert ParseType(loc1) == ParseList(spec, Len(loc1));
      var l := ReadList();
      match l
      case Bad(err) => r := Bad(err);
      case Good(listed) =>
        var loc6 := rest;
        var tok6 := Read();
        if tok6 != Some(Sym(Arrow)) && !listed.isArgs {
          if listed.last.None? {
            Seek(loc1);
            return Good(None);
          }
          Seek(loc6);
          var w := WrapTypeRead(Type(listed.last.value.body, true));
          r := Found(w);
        } else if tok6 != Some(Sym(Arrow)) {
          Seek(loc6);
          r := Bad(E0153);
        } else {
          var ret := ReadType();
          match ret
          case Bad(err) => r := Bad(err);
          case Good(None) => r := Bad(E0120);
          case Good(Some(t)) =>
            var w := WrapTypeRead(Type(TypeFn(listed.params, t, false), false));
            r := Found(w);
        }
    }

    // The loop of that branch.
    method ReadList() returns (r: Outcome<Listed>)
      modifies this
      ensures
        match ParseParams(old(rest), false, false)
        case Ok(l, k) => r == Good(l) && rest == k
        case Null => false
        case Fail(err) => r == Bad(err)
      decreases Len(rest), 4
    {
      ghost var from := rest;
      var isArgList := false;
      var lastType: Option<Type> := None;
      var fnParams := NoParams;
      var loc2 := rest;
      var tok2 := Read();
      while tok2 != Some(Sym(RPar))
        invariant tok2 == (if loc2.Next? then Some(loc2.tok) else None) && rest == if loc2.Next? then loc2.rest else Eof
        invariant Len(loc2) <= Len(from)
        invariant fnParams.NoParams? ==> lastType.None?
        invariant AfterParams(fnParams, lastType, ParseParams(loc2, isArgList, fnParams.MoreParams?)) ==
                  ParseParams(from, false, false)
        decreases Len(loc2)
      {
        if ParseHead(loc2).Fail? || (ParseHead(loc2).Ok? && !ParseType(ParseHead(loc2).rest).Ok?) {
          NoParam(fnParams, lastType, loc2, isArgList);
        }
        var head := ReadHead(loc2, tok2);
        if head.Bad? { return Bad(head.err); }
        ghost var wasArgList := isArgList;
        isArgList := isArgList || head.value.id.Some?;
        var t := ReadType();
        if t.Bad? { return Bad(t.err); }
        if t.value.None? {
          if !isArgList && fnParams.NoParams? {
            return Good(Listed(NoParams, None, false));
          }
          return Bad(if !isArgList then E0127 else E0118);
        }
        NextParam(fnParams, lastType, loc2, wasArgList);
        lastType := t.value;
        var variadic := ReadEllipsis();
        var param := MoreParams(head.value.id, t.value.value, head.value.isMut, variadic, NoParams);
        fnParams := AppendParams(fnParams, param);
        loc2 := rest;
        tok2 := Read();
        if tok2 == Some(Sym(Comma)) {
          loc2 := rest;
          tok2 := Read();
          isArgList := true;
        }
      }
      ParamsEnd(fnParams);
      r := Good(Listed(fnParams, lastType, isArgList));
    }

    method ReadEllipsis() returns (variadic: bool)
      modifies this
      ensures variadic == Starts(old(rest), Ellipsis) && rest == SkipEllipsis(old(rest))
    {
      var loc5 := rest;
      var tok5 := Read();
      variadic := tok5 == Some(Sym(Ellipsis));
      if !variadic { Seek(loc5); }
    }

    // A parameter's `mut` and name; `tok2` has been read at `loc2`.
    method ReadHead(loc2: Tokens, tok2: Option<Token>) returns (r: Outcome<Head>)
      requires tok2 == (if loc2.Next? then Some(loc2.tok) else None) && rest == if loc2.Next? then loc2.rest else Eof
      modifies this
      ensures
        match ParseHead(loc2)
        case Ok(h, k) => r == Good(h) && rest == k
        case Null => false
        case Fail(err) => r == Bad(err)
    {
      if tok2 == Some(Sym(Mut)) {
        var tok3 := Read();
        if tok3.None? || !tok3.value.Id? { return Bad(E0145); }
        var tok4 := Read();
        if tok4 != Some(Sym(Colon)) { return Bad(E0146); }
        r := Good(Head(Some(tok3.value.name), true));
      } else if tok2.Some? && tok2.value.Id? {
        var tok3 := Read();
        if tok3 == Some(Sym(Colon)) {
          r := Good(Head(Some(tok2.value.name), false));
        } else {
          Seek(loc2);
          r := Good(Head(None, false));
        }
      } else {
        Seek(loc2);
        r := Good(Head(None, false));
      }
    }

    // `_wrapType`.
    method WrapTypeRead(t: Type) returns (r: Outcome<Type>)
      modifies this
      ensures
        match WrapType(t, old(rest))
        case Ok(t1, k) => r == Good(t1) && rest == k
        case Null => false
        case Fail(err) => r == Bad(err)
      decreases Len(rest), 5
    {
      var loc1 := rest;
      var tok1 := Read();
      if tok1 == Some(Sym(Dot)) {
        if !t.body.TypeId? && !t.body.TypeMember? { return Bad(E0191); }
        var tok2 := Read();
        if tok2.None? || !tok2.value.Id? { return Bad(E0192); }
        assert Len(loc1) == 2 + Len(rest);
        r := WrapTypeRead(Type(TypeMember(t, tok2.value.name), false));
      } else if tok1 == Some(Sym(LBrack)) {
        var loc2 := rest;
        var tok2 := Read();
        if tok2 != Some(Sym(RBrack)) {
          Seek(loc2);
          var key := ReadType();
          if key.Bad? { return Bad(key.err); }
          if key.value.None? { return Bad(E0151); }
          if !key.value.value.body.TypeId? { return Bad(E0171); }
          var tok3 := Read();
          if tok3 != Some(Sym(RBrack)) { return Bad(E0172); }
          r := WrapTypeRead(Type(TypeMap(key.value.value, t), false));
        } else {
          r := WrapTypeRead(Type(TypeArray(t), false));
        }
      } else if tok1 == Some(Sym(Pipe)) {
        var sub := ReadType();
        if sub.Bad? { return Bad(sub.err); }
        if sub.value.None? { return Bad(E0163); }
        r := WrapTypeRead(Type(TypeUnion(MoreTypes(t, SubTypes(sub.value.value))), false));
      } else if tok1 == Some(Sym(Qn)) {
        r := WrapTypeRead(Type(TypeOptional(t), false));
      } else {
        Seek(loc1);
        r := Good(t);
      }
    }
  }
}
