/** The grammar of expressions, level by level.  Nothing here reads the operator
    tables: which operators there are and how tight they bind is written out. */
module ExprGrammar {
  import opened Prelude
  import opened Parsing
  import opened ExprSyntax
  import opened ExprSpec
  import opened ExprShape
  import opened ExprRound
  import opened ExprSound
  import opened ExprAccept
  import opened ExprJoins
  import opened ExprValue

  // The classes of binary operators, those that bind tightest first.
  const CLASSES := 10

  function Class(i: nat): set<Op>
    requires i < CLASSES
  {
    if i == 0 then {Star, Slash, Percent}
    else if i == 1 then {Plus, Minus}
    else if i == 2 then {LShift, RShift}
    else if i == 3 then {Lt, LtEq, Gt, GtEq}
    else if i == 4 then {EqEq, ExclEq}
    else if i == 5 then {Amp}
    else if i == 6 then {Caret}
    else if i == 7 then {Pipe}
    else if i == 8 then {AmpAmp}
    else {PipePipe}
  }

  function AssignOps(): set<Op> {
    {Eq, PlusEq, MinusEq, StarEq, SlashEq, PercentEq, AmpEq, PipeEq, CaretEq, LShiftEq, RShiftEq, AmpAmpEq, PipePipeEq}
  }

  function StepOps(): set<Op> { {PlusPlus, MinusMinus} }

  function SignOps(): set<Op> { {Minus, Plus, Excl, Tilde} }

  // ----- The levels -----

  // Operands with `.`, `[]` and `()` behind them, then those with `++` and `--`
  // too, those with prefix operators, one level for each class of binary
  // operators, and everything.
  const CHAIN := 0
  const STEPPED := 1
  const PREFIXED := 2
  const BINARY := 3
  const WHOLE := 13

  predicate Access(e: Expr) {
    match e.body
    case Name(_) => true
    case DotName(_) => true
    case Prop(_, _) => true
    case Index(_, _) => true
    case _ => false
  }

  // The operand of a chain of `.`, `[]` and `()`.
  function Start(e: Expr): Expr
    decreases e.body
  {
    if e.par then e
    else
      match e.body
      case Prop(x, _) => Start(x)
      case Index(x, _) => Start(x)
      case Call(x, _) => Start(x)
      case _ => e
  }

  predicate At(e: Expr, n: nat)
    decreases e, 1
  {
    AtBody(e.body, if e.par then WHOLE else n)
  }

  predicate AtBody(b: Body, n: nat)
    decreases b, 0
  {
    match b
    case Name(_) => true
    case DotName(_) => true
    case Literal(_) => true
    case StrLit(_) => true
    case Array(xs) => AllAt(xs)
    case Prop(x, _) => At(x, if n == CHAIN then CHAIN else STEPPED)
    case Index(x, y) => At(x, if n == CHAIN then CHAIN else STEPPED) && At(y, WHOLE)
    case Call(x, args) => At(x, if n == CHAIN then CHAIN else STEPPED) && ArgsAt(args)
    case Postfix(x, op) => n >= STEPPED && op in StepOps() && Access(x) && At(x, STEPPED)
    case AwaitOf(x) => n >= PREFIXED && At(x, PREFIXED)
    case Prefix(op, x) =>
      n >= PREFIXED &&
      if op in StepOps() then At(x, CHAIN) && Access(Start(x)) else op in SignOps() && At(x, PREFIXED)
    case Binary(x, op, y) =>
      exists i: nat {:trigger Class(i)} | i < CLASSES ::
        op in Class(i) && n >= BINARY + i && At(x, BINARY + i) && At(y, BINARY + i - 1)
    case Assign(x, op, y) => n >= WHOLE && op in AssignOps() && Access(x) && At(x, STEPPED) && At(y, WHOLE)
    case Cond(x, y, z) => n >= WHOLE && At(x, BINARY + CLASSES - 1) && At(y, WHOLE) && At(z, WHOLE)
  }

  predicate AllAt(xs: Exprs)
    decreases xs
  {
    match xs
    case NoExprs => true
    case MoreExprs(x, others) => At(x, WHOLE) && AllAt(others)
  }

  predicate ArgsAt(xs: Args)
    decreases xs
  {
    match xs
    case NoArgs => true
    case MoreArgs(_, x, others) => At(x, WHOLE) && ArgsAt(others)
  }

  // ----- The tables, operator by operator -----

  lemma ClassOf(op: Op, i: nat)
    requires i < CLASSES
    ensures op in Class(i) <==> IsBinary(op) && Precedence(op, false) == 12 - i
  {
    if IsBinary(op) { BinaryInClass(op, i); } else { OtherInNoClass(op, i); }
  }

  lemma BinaryInClass(op: Op, i: nat)
    requires i < CLASSES && IsBinary(op)
    ensures op in Class(i) <==> Precedence(op, false) == 12 - i
  {
  }

  lemma OtherInNoClass(op: Op, i: nat)
    requires i < CLASSES && !IsBinary(op)
    ensures op !in Class(i)
  {
  }

  lemma ClassNumber(op: Op) returns (i: nat)
    requires IsBinary(op)
    ensures i < CLASSES && op in Class(i) && Precedence(op, false) == 12 - i
  {
    BinaryKind(op);
    i := 12 - Precedence(op, false);
    ClassOf(op, i);
  }

  lemma OtherOps(op: Op)
    ensures op in AssignOps() <==> IsAssign(op)
    ensures op in StepOps() <==> IsStep(op)
    ensures op in StepOps() || op in SignOps() <==> IsPrefix(op)
  {
  }

  // The level of the node at the top.
  function Top(b: Body): nat {
    match b
    case Postfix(_, _) => STEPPED
    case AwaitOf(_) => PREFIXED
    case Prefix(_, _) => PREFIXED
    case Binary(_, op, _) => if 3 <= Precedence(op, false) <= 12 then BINARY + 12 - Precedence(op, false) else WHOLE
    case Assign(_, _, _) => WHOLE
    case Cond(_, _, _) => WHOLE
    case _ => CHAIN
  }

  // The level of what an operator of precedence `p` does not go into.
  function LevelOf(p: int): nat {
    if p <= 2 then BINARY + 9 else if p <= 12 then BINARY + 12 - p else STEPPED
  }

  lemma DescendsByLevel(e: Expr, p: int)
    requires Obeys(e, false) && (2 <= p <= 12 || p >= 17)
    ensures Descends(e, p) <==> !e.par && Top(e.body) > LevelOf(p)
  {
    NodeKind(e, false);
    if e.body.Prefix? { PrefixKind(e.body.op); }
    if e.body.Binary? { BinaryKind(e.body.op); }
    if e.body.Assign? { AssignKind(e.body.op); }
  }

  // The level of what has only operators of precedence `lo` and more outside
  // brackets.
  function LevelFrom(lo: int): nat { if lo <= 2 then WHOLE else if lo <= 12 then BINARY + 12 - lo else PREFIXED }

  lemma {:induction false} TightByLevel(e: Expr, lo: int)
    requires Obeys(e, false) && 2 <= lo <= 16
    ensures Tight(e, lo) <==> e.par || Top(e.body) <= LevelFrom(lo)
    decreases e, 0
  {
    if e.par { return; }
    match e.body
    case Prop(x, _) => SuffixIsTight(x, 17, lo);
    case Index(x, _) => SuffixIsTight(x, 17, lo);
    case Call(x, _) => SuffixIsTight(x, 18, lo);
    case Postfix(x, _) => TightByLevel(x, lo);
    case AwaitOf(x) => HeldIsTight(x, 16, lo);
    case Prefix(op, x) => PrefixIsTight(op, x, lo);
    case Binary(x, op, y) => BinaryIsTight(x, op, y, lo);
    case Assign(x, op, y) => AssignIsTight(x, op, y, lo);
    case Cond(x, y, z) => CondIsTight(x, y, z, lo);
    case _ =>
  }

  lemma {:induction false} PrefixIsTight(op: Op, x: Expr, lo: int)
    requires Obeys(Expr(Prefix(op, x), false), false) && 2 <= lo <= 16
    ensures Tight(x, lo)
    decreases Prefix(op, x), 0
  {
    PrefixKind(op);
    HeldIsTight(x, Precedence(op, true) + 1, lo);
  }

  lemma {:induction false} AssignIsTight(x: Expr, op: Op, y: Expr, lo: int)
    requires Obeys(Expr(Assign(x, op, y), false), false) && 2 <= lo <= 16
    ensures Tight(Expr(Assign(x, op, y), false), lo) <==> lo == 2
    decreases Assign(x, op, y), 0
  {
    AssignKind(op);
    LeftIsTight(x, 2, lo);
    TightByLevel(y, lo);
  }

  lemma {:induction false} CondIsTight(x: Expr, y: Expr, z: Expr, lo: int)
    requires Obeys(Expr(Cond(x, y, z), false), false) && 2 <= lo <= 16
    ensures Tight(Expr(Cond(x, y, z), false), lo) <==> lo == 2
    decreases Cond(x, y, z), 0
  {
    LeftIsTight(x, 2, lo);
    TightByLevel(z, lo);
  }

  // Operands of an operator that binds as tight as `lo` or tighter.
  lemma {:induction false} LeftIsTight(x: Expr, p: int, lo: int)
    requires Obeys(x, false) && !Descends(x, p) && 2 <= p <= 12 && 2 <= lo <= 16
    ensures lo <= p ==> Tight(x, lo)
    decreases x, 1
  {
    DescendsByLevel(x, p);
    TightByLevel(x, lo);
  }

  lemma {:induction false} BinaryIsTight(x: Expr, op: Op, y: Expr, lo: int)
    requires Obeys(Expr(Binary(x, op, y), false), false) && 2 <= lo <= 16
    ensures Tight(Expr(Binary(x, op, y), false), lo) <==> Top(Binary(x, op, y)) <= LevelFrom(lo)
    decreases Binary(x, op, y), 0
  {
    BinaryKind(op);
    LeftIsTight(x, Precedence(op, false), lo);
    if lo <= Precedence(op, false) { TightLower(y, Precedence(op, false) + 1, lo); }
  }

  // What `.`, `[]` or `()` stands behind.
  lemma {:induction false} SuffixIsTight(x: Expr, p: int, lo: int)
    requires Obeys(x, false) && !Descends(x, p) && p >= 17 && 2 <= lo <= 16
    ensures Tight(x, lo)
    decreases x, 1
  {
    DescendsByLevel(x, p);
    TightByLevel(x, lo);
  }

  // What a prefix operator stands in front of.
  lemma {:induction false} HeldIsTight(x: Expr, floor: int, lo: int)
    requires Obeys(x, false) && Tight(x, floor) && 13 <= floor <= 17 && 2 <= lo <= 16
    ensures Tight(x, lo)
    decreases x, 1
  {
    TightLower(x, floor, 13);
    TightByLevel(x, 13);
    TightByLevel(x, lo);
  }

  lemma {:induction false} TightLower(e: Expr, lo: int, lower: int)
    requires Tight(e, lo) && lower <= lo
    ensures Tight(e, lower)
    decreases e
  {
    if e.par { return; }
    match e.body
    case Prop(x, _) => TightLower(x, lo, lower);
    case Index(x, _) => TightLower(x, lo, lower);
    case Call(x, _) => TightLower(x, lo, lower);
    case Postfix(x, _) => TightLower(x, lo, lower);
    case Binary(x, _, y) => TightLower(x, lo, lower); TightLower(y, lo, lower);
    case Assign(x, _, y) => TightLower(x, lo, lower); TightLower(y, lo, lower);
    case Cond(x, _, z) => TightLower(x, lo, lower); TightLower(z, lo, lower);
    case AwaitOf(x) => TightLower(x, lo, lower);
    case Prefix(_, x) => TightLower(x, lo, lower);
    case _ =>
  }

  // ----- The trees of the grammar are those that obey the tables -----

  predicate Within(e: Expr, n: nat) { e.par || Top(e.body) <= n }

  lemma {:induction false} AtByTables(e: Expr, n: nat)
    requires STEPPED <= n <= WHOLE
    ensures At(e, n) <==> Obeys(e, false) && Within(e, n)
    decreases e, 0
  {
    match e.body
    case Name(_) =>
    case DotName(_) =>
    case Literal(_) =>
    case StrLit(_) =>
    case Array(xs) => AllByTables(xs);
    case Prop(x, _) => LeftByTables(x, 17);
    case Index(x, y) => LeftByTables(x, 17); AtByTables(y, WHOLE);
    case Call(x, args) => LeftByTables(x, 18); ArgsByTables(args);
    case Postfix(x, op) => PostfixByTables(x, op);
    case AwaitOf(x) => HeldByTables(x, 16);
    case Prefix(op, x) => PrefixByTables(op, x);
    case Binary(x, op, y) => BinaryByTables(x, op, y, if e.par then WHOLE else n);
    case Assign(x, op, y) => AssignByTables(x, op, y);
    case Cond(x, y, z) => CondByTables(x, y, z);
  }

  lemma {:induction false} AllByTables(xs: Exprs)
    ensures AllAt(xs) <==> ObeyAll(xs, false)
    decreases xs
  {
    match xs
    case NoExprs =>
    case MoreExprs(x, others) => AtByTables(x, WHOLE); AllByTables(others);
  }

  lemma {:induction false} ArgsByTables(xs: Args)
    ensures ArgsAt(xs) <==> ObeyArgs(xs, false)
    decreases xs
  {
    match xs
    case NoArgs =>
    case MoreArgs(_, x, others) => AtByTables(x, WHOLE); ArgsByTables(others);
  }

  // What stands behind `x` binds with precedence `p`.
  lemma {:induction false} LeftByTables(x: Expr, p: int)
    requires 2 <= p <= 12 || p >= 17
    ensures At(x, LevelOf(p)) <==> Obeys(x, false) && !Descends(x, p)
    decreases x, 1
  {
    AtByTables(x, LevelOf(p));
    if Obeys(x, false) { DescendsByLevel(x, p); }
  }

  lemma {:induction false} HeldByTables(x: Expr, lo: int)
    requires 2 <= lo <= 16
    ensures At(x, LevelFrom(lo)) <==> Obeys(x, false) && Tight(x, lo)
    decreases x, 1
  {
    AtByTables(x, LevelFrom(lo));
    if Obeys(x, false) { TightByLevel(x, lo); }
  }

  lemma {:induction false} PostfixByTables(x: Expr, op: Op)
    ensures AtBody(Postfix(x, op), STEPPED) <==> Obeys(Expr(Postfix(x, op), false), false)
    decreases Postfix(x, op), 0
  {
    OtherOps(op);
    AtByTables(x, STEPPED);
  }

  lemma {:induction false} PrefixByTables(op: Op, x: Expr)
    ensures AtBody(Prefix(op, x), PREFIXED) <==> Obeys(Expr(Prefix(op, x), false), false)
    decreases Prefix(op, x), 0
  {
    OtherOps(op);
    if IsStep(op) {
      ChainByTables(x);
    } else if op in SignOps() {
      PrefixKind(op);
      HeldByTables(x, 15);
    }
  }

  lemma {:induction false} BinaryByTables(x: Expr, op: Op, y: Expr, n: nat)
    requires STEPPED <= n <= WHOLE
    ensures
      AtBody(Binary(x, op, y), n) <==> Obeys(Expr(Binary(x, op, y), false), false) && Top(Binary(x, op, y)) <= n
    decreases Binary(x, op, y), 0
  {
    BinaryObeys(x, op, y);
    if IsBinary(op) {
      var i := ClassNumber(op);
      OneClass(op, i);
      BinaryAt(x, op, y, n, i);
      LeftByTables(x, 12 - i);
      HeldByTables(y, 13 - i);
    } else {
      forall j: nat | j < CLASSES ensures op !in Class(j) { ClassOf(op, j); }
    }
  }

  lemma OneClass(op: Op, i: nat)
    requires i < CLASSES && op in Class(i)
    ensures forall j: nat | j < CLASSES :: op in Class(j) <==> j == i
  {
    ClassOf(op, i);
    forall j: nat | j < CLASSES ensures op in Class(j) <==> j == i { ClassOf(op, j); }
  }

  lemma BinaryAt(x: Expr, op: Op, y: Expr, n: nat, i: nat)
    requires i < CLASSES && forall j: nat | j < CLASSES :: op in Class(j) <==> j == i
    ensures AtBody(Binary(x, op, y), n) <==> n >= BINARY + i && At(x, BINARY + i) && At(y, BINARY + i - 1)
  {
    if n >= BINARY + i && At(x, BINARY + i) && At(y, BINARY + i - 1) { assert op in Class(i); }
  }

  lemma BinaryObeys(x: Expr, op: Op, y: Expr)
    ensures
      Obeys(Expr(Binary(x, op, y), false), false) <==>
      && IsBinary(op) && Obeys(x, false) && !Descends(x, Precedence(op, false)) && Obeys(y, false)
      && Tight(y, Precedence(op, false) + 1)
  {
    if IsBinary(op) {
      BinaryKind(op);
      assert Floor(Binary(x, op, y)) == Precedence(op, false) + 1;
    }
  }

  lemma AccessIsShut(x: Expr, p: int)
    requires IsAccess(x)
    ensures !Descends(x, p) && Within(x, CHAIN) && Access(x)
  {
  }

  lemma {:induction false} AssignByTables(x: Expr, op: Op, y: Expr)
    ensures AtBody(Assign(x, op, y), WHOLE) <==> Obeys(Expr(Assign(x, op, y), false), false)
    decreases Assign(x, op, y), 0
  {
    OtherOps(op);
    if IsAssign(op) && IsAccess(x) {
      AccessIsShut(x, 2);
      AssignKind(op);
      AtByTables(x, STEPPED);
      HeldByTables(y, 2);
      assert Floor(Assign(x, op, y)) == 2;
    }
  }

  lemma {:induction false} CondByTables(x: Expr, y: Expr, z: Expr)
    ensures AtBody(Cond(x, y, z), WHOLE) <==> Obeys(Expr(Cond(x, y, z), false), false)
    decreases Cond(x, y, z), 0
  {
    LeftByTables(x, 2);
    AtByTables(y, WHOLE);
    HeldByTables(z, 2);
  }

  lemma {:induction false} ChainByTables(e: Expr)
    ensures At(e, CHAIN) && Access(Start(e)) <==> Obeys(e, false) && Tight(e, 17) && IsAccess(First(e))
    decreases e, 1
  {
    if e.par {
      AtByTables(e, STEPPED);
    } else {
      match e.body
      case Prop(x, _) => ChainLeft(x, 17);
      case Index(x, y) => ChainLeft(x, 17); AtByTables(y, WHOLE);
      case Call(x, args) => ChainLeft(x, 18); ArgsByTables(args);
      case _ => NoChain(e);
    }
  }

  // The end of a chain.
  lemma NoChain(e: Expr)
    requires !e.par && !e.body.Prop? && !e.body.Index? && !e.body.Call?
    ensures Start(e) == e && (At(e, CHAIN) && Access(e) <==> e.body.Name? || e.body.DotName?)
    ensures Obeys(e, false) && Tight(e, 17) && IsAccess(First(e)) <==> e.body.Name? || e.body.DotName?
  {
    assert At(e, CHAIN) == AtBody(e.body, CHAIN);
    if Obeys(e, false) && Tight(e, 17) { TightEnd(e); }
  }

  lemma TightEnd(e: Expr)
    requires !e.par && Obeys(e, false) && Tight(e, 17) && !e.body.Prop? && !e.body.Index? && !e.body.Call?
    ensures !HasLeft(e) && (IsAccess(First(e)) ==> e.body.Name? || e.body.DotName?)
  {
    if e.body.Binary? { BinaryKind(e.body.op); }
    if e.body.Assign? { AssignKind(e.body.op); }
  }

  lemma {:induction false} ChainLeft(x: Expr, p: int)
    requires p >= 17
    ensures
      At(x, CHAIN) && Access(Start(x)) <==>
      Obeys(x, false) && Tight(x, 17) && IsAccess(First(x)) && !Descends(x, p)
    decreases x, 2
  {
    ChainByTables(x);
    LeftByTables(x, p);
    AtByTables(x, STEPPED);
  }
}
