/** A textbook precedence-climbing parser over the same operator tables, and the
    proof that insertion into the right spine accepts the same token lists and
    builds the same trees (string literals left alone). */
module ExprClimb {
  import opened Prelude
  import opened Parsing
  import opened ExprSyntax
  import opened ExprSpec
  import opened ExprShape
  import opened ExprSound

  // ----- The reference parser -----

  // The precedence of the operator at the front, -1 when there is none.
  function Front(ts: Tokens): (p: int)
    ensures p >= -1
  {
    if !ts.Next? || !ts.tok.Sym? then -1
    else if IsStep(ts.tok.op) then Precedence(ts.tok.op, true)
    else if ts.tok.op.Dot? || ts.tok.op.LBrack? || ts.tok.op.LPar? || ts.tok.op.Qn? ||
            IsBinary(ts.tok.op) || IsAssign(ts.tok.op) then Precedence(ts.tok.op, false)
    else if IsBeyond(ts.tok.op) then Precedence(LPar, false)
    else -1
  }

  function Max(a: int, b: int): int { if a < b then b else a }

  // An expression whose operators bind at least as tightly as `lo`.
  function Climb(ts: Tokens, lo: int): (r: Result<Expr>)
    ensures r.Ok? ==> Len(r.rest) < Len(ts)
    decreases Len(ts), 2
  {
    var l := ClimbOperand(ts, lo);
    if l.Ok? then ClimbLoop(l.value, l.rest, lo) else l
  }

  // A prefix operator takes everything on its right that binds tighter.
  function ClimbOperand(ts: Tokens, lo: int): (r: Result<Expr>)
    ensures r.Ok? ==> Len(r.rest) < Len(ts)
    decreases Len(ts), 1
  {
    match ts
    case Eof => Null
    case Next(Id(x), rest) => Ok(Expr(Name(x), false), rest)
    case Next(Lit(x), rest) => Ok(Expr(Literal(x), false), rest)
    case Next(Str(x), rest) => Ok(Expr(StrLit(x), false), rest)
    case Next(Sym(op), rest) =>
      if op.Await? || IsPrefix(op) then
        ClimbPrefix(op, Climb(rest, Max(lo, Precedence(op, true) + 1)))
      else if op.Dot? then
        if rest.Next? && rest.tok.Id? then Ok(Expr(DotName(rest.tok.name), false), rest.rest) else Fail(E0159)
      else if op.LBrack? then ClimbArray(ClimbElements(rest))
      else if op.LPar? then ClimbParens(Climb(rest, 0))
      else Null
  }

  function ClimbPrefix(op: Op, r: Result<Expr>): Result<Expr> {
    if !r.Ok? then Fail(E0132)
    else if op.Await? then Ok(Expr(AwaitOf(r.value), false), r.rest)
    else if IsStep(op) && !IsAccess(First(r.value)) then Fail(E0142)
    else Ok(Expr(Prefix(op, r.value), false), r.rest)
  }

  function ClimbArray(r: Result<Exprs>): Result<Expr> {
    if r.Ok? then Ok(Expr(Array(r.value), false), r.rest) else Fail(E0152)
  }

  function ClimbParens(r: Result<Expr>): Result<Expr> {
    if r.Ok? && Starts(r.rest, RPar) then Ok(Expr(r.value.body, true), r.rest.rest) else Fail(E0109)
  }

  function ClimbElements(ts: Tokens): (r: Result<Exprs>)
    ensures r.Ok? ==> Len(r.rest) < Len(ts)
    decreases Len(ts), 3
  {
    if Starts(ts, RBrack) then Ok(NoExprs, ts.rest)
    else
      var x := Climb(ts, 0);
      if !x.Ok? then Fail(E0152)
      else
        var xs := ClimbElements(SkipComma(x.rest));
        if xs.Ok? then Ok(MoreExprs(x.value, xs.value), xs.rest) else xs
  }

  function ClimbArgs(ts: Tokens): (r: Result<Args>)
    ensures r.Ok? ==> Len(r.rest) < Len(ts)
    decreases Len(ts), 3
  {
    if Starts(ts, RPar) then Ok(NoArgs, ts.rest)
    else
      var id := if StartsNamed(ts) then Some(ts.tok.name) else None;
      var x := Climb(SkipName(ts), 0);
      if !x.Ok? then Fail(E0135)
      else
        var xs := ClimbArgs(SkipComma(x.rest));
        if xs.Ok? then Ok(MoreArgs(id, x.value, xs.value), xs.rest) else xs
  }

  // `l`, the operator at the front, and its right operand.
  function ClimbStep(l: Expr, ts: Tokens): (r: Result<Expr>)
    requires Front(ts) >= 0
    ensures r.Ok? ==> Len(r.rest) < Len(ts)
    decreases Len(ts), 0
  {
    if ts.tok.op.Dot? then
      if ts.rest.Next? && ts.rest.tok.Id? then Ok(Expr(Prop(l, ts.rest.tok.name), false), ts.rest.rest)
      else Fail(E0110)
    else if ts.tok.op.LBrack? then ClimbIndex(l, Climb(ts.rest, 0))
    else if ts.tok.op.LPar? then ClimbCall(l, ClimbArgs(ts.rest))
    else if IsStep(ts.tok.op) then
      if IsAccess(l) then Ok(Expr(Postfix(l, ts.tok.op), false), ts.rest) else Fail(E0142)
    else if IsBinary(ts.tok.op) then ClimbBinary(l, ts.tok.op, Climb(ts.rest, Precedence(ts.tok.op, false) + 1))
    else if IsAssign(ts.tok.op) then ClimbAssign(l, ts.tok.op, Climb(ts.rest, Precedence(ts.tok.op, false)))
    else if ts.tok.op.Qn? then ClimbCond(l, ts.rest)
    else Fail(Beyond)
  }

  function ClimbIndex(l: Expr, r: Result<Expr>): Result<Expr> {
    if r.Ok? && Starts(r.rest, RBrack) then Ok(Expr(Index(l, r.value), false), r.rest.rest) else Fail(E0151)
  }

  function ClimbCall(l: Expr, r: Result<Args>): Result<Expr> {
    if r.Ok? then Ok(Expr(Call(l, r.value), false), r.rest) else Fail(E0135)
  }

  function ClimbBinary(l: Expr, op: Op, r: Result<Expr>): Result<Expr> {
    if r.Ok? then Ok(Expr(Binary(l, op, r.value), false), r.rest) else Fail(E0137)
  }

  function ClimbAssign(l: Expr, op: Op, r: Result<Expr>): Result<Expr> {
    if !IsAccess(l) then Fail(E0140)
    else if r.Ok? then Ok(Expr(Assign(l, op, r.value), false), r.rest)
    else Fail(E0133)
  }

  function ClimbCond(l: Expr, ts: Tokens): (r: Result<Expr>)
    ensures r.Ok? ==> Len(r.rest) < Len(ts)
    decreases Len(ts), 4
  {
    var t := Climb(ts, 0);
    if !t.Ok? || !Starts(t.rest, Colon) then Fail(E0138)
    else
      var a := Climb(t.rest.rest, Precedence(Qn, false));
      if a.Ok? then Ok(Expr(Cond(l, t.value, a.value), false), a.rest) else Fail(E0139)
  }

  // As long as the operator at the front binds at least as tightly as `lo`.
  function ClimbLoop(l: Expr, ts: Tokens, lo: int): (r: Result<Expr>)
    ensures r.Ok? ==> Len(r.rest) <= Len(ts)
    ensures r.Ok? ==> Front(r.rest) < Max(lo, 0)
    decreases Len(ts), 1
  {
    if Front(ts) < Max(lo, 0) then Ok(l, ts)
    else
      var l1 := ClimbStep(l, ts);
      if l1.Ok? then ClimbLoop(l1.value, l1.rest, lo) else l1
  }

  // ----- Insertion, stopped at operators that bind more loosely than `lo` -----

  function WrapFrom(e: Expr, ts: Tokens, lo: int): (r: Result<Expr>)
    ensures !r.Null?
    ensures r.Ok? ==> Len(r.rest) <= Len(ts)
    decreases Len(ts)
  {
    if Front(ts) < lo then Ok(e, ts)
    else
      match ParseItem(ts, false)
      case Null => Ok(e, ts)
      case Fail(err) => Fail(err)
      case Ok(it, rest) =>
        match Insert(e, it, false)
        case Good(e1) => WrapFrom(e1, rest, lo)
        case Bad(err) => Fail(err)
  }

  function WrapOperand(o: Result<Expr>, lo: int): Result<Expr> { if o.Ok? then WrapFrom(o.value, o.rest, lo) else o }

  function FromOperand(ts: Tokens, lo: int): Result<Expr> { WrapOperand(ParseOperand(ts, false), lo) }

  lemma ItemIsFront(ts: Tokens)
    ensures ParseItem(ts, false).Ok? ==> ItemPrecedence(ParseItem(ts, false).value) == Front(ts) >= 0
    ensures ParseItem(ts, false).Null? <==> Front(ts) == -1
  {
    if ParseItem(ts, false).Null? { NoItemEnds(ts, false); }
  }

  lemma {:induction false} WrapAllIsFrom(e: Expr, ts: Tokens)
    ensures WrapAll(e, ts, false) == WrapFrom(e, ts, 0)
    decreases Len(ts)
  {
    ItemIsFront(ts);
    var it := ParseItem(ts, false);
    if it.Ok? && Insert(e, it.value, false).Good? {
      WrapAllIsFrom(Insert(e, it.value, false).value, it.rest);
    }
  }

  lemma {:induction false} WrapFromKeepsFirst(e: Expr, ts: Tokens, lo: int)
    requires WrapFrom(e, ts, lo).Ok?
    ensures First(WrapFrom(e, ts, lo).value) == First(e)
    decreases Len(ts)
  {
    var it := ParseItem(ts, false);
    if Front(ts) >= lo && it.Ok? {
      InsertKeepsFirst(e, it.value, false);
      WrapFromKeepsFirst(Insert(e, it.value, false).value, it.rest, lo);
    }
  }

  lemma DescendsFromFloor(e: Expr, p: int)
    requires HasRight(e) && !e.par
    ensures Descends(e, p) <==> p >= Floor(e.body)
  {
  }

  lemma InsertGoesRight(e: Expr, it: Item)
    requires HasRight(e) && !e.par && Descends(e, ItemPrecedence(it))
    ensures
      var r := Insert(Right(e), it, false);
      Insert(e, it, false) == if r.Good? then Good(WithRight(e, r.value)) else r
    ensures forall r :: HasRight(WithRight(e, r)) && !WithRight(e, r).par && Right(WithRight(e, r)) == r
    ensures forall r, r' :: WithRight(WithRight(e, r), r') == WithRight(e, r')
    ensures forall r :: Floor(WithRight(e, r).body) == Floor(e.body)
  {
  }

  // First the operators for the right operand, then the others.
  lemma {:induction false} WrapFromSplits(e: Expr, ts: Tokens, lo: int)
    requires HasRight(e) && !e.par && lo >= 0
    ensures
      var w := WrapFrom(Right(e), ts, Max(lo, Floor(e.body)));
      WrapFrom(e, ts, lo) == if w.Ok? then WrapFrom(WithRight(e, w.value), w.rest, lo) else w
    decreases Len(ts)
  {
    var m := Max(lo, Floor(e.body));
    assert WithRight(e, Right(e)) == e;
    if Front(ts) >= m {
      ItemIsFront(ts);
      var it := ParseItem(ts, false);
      DescendsFromFloor(e, Front(ts));
      if it.Ok? {
        var r := Insert(Right(e), it.value, false);
        InsertGoesRight(e, it.value);
        if r.Good? { WrapFromSplits(WithRight(e, r.value), it.rest, lo); }
      }
    }
  }

  // ----- They agree -----

  ghost predicate Same<T>(a: Result<T>, b: Result<T>) { a.Ok? == b.Ok? && (a.Ok? ==> a == b) }

  // The operator at the front, if it is one for this level, does not go into
  // the right operand of `l`.
  predicate Settled(l: Expr, ts: Tokens, lo: int) { Front(ts) >= lo ==> !Descends(l, Front(ts)) }

  lemma {:induction false} ClimbAgrees(ts: Tokens, lo: int)
    requires lo >= 0
    ensures Same(FromOperand(ts, lo), Climb(ts, lo))
    decreases Len(ts), 4
  {
    if ts.Next? && ts.tok.Sym? && (ts.tok.op.Await? || IsPrefix(ts.tok.op)) {
      PrefixAgrees(ts, lo);
    } else {
      OperandAgrees(ts, lo);
      var o := ParseOperand(ts, false);
      if o.Ok? { LoopAgrees(o.value, o.rest, lo); }
    }
  }

  lemma {:induction false} OperandAgrees(ts: Tokens, lo: int)
    requires !(ts.Next? && ts.tok.Sym? && (ts.tok.op.Await? || IsPrefix(ts.tok.op)))
    ensures
      var o := ParseOperand(ts, false);
      Same(o, ClimbOperand(ts, lo)) && (o.Ok? ==> !HasRight(o.value) || o.value.par)
    decreases Len(ts), 3
  {
    if Starts(ts, LBrack) {
      ElementsAgree(ts.rest);
    } else if Starts(ts, LPar) {
      ExprAgrees(ts.rest);
    }
  }

  lemma {:induction false} ExprAgrees(ts: Tokens)
    ensures Same(ParseExpr(ts, false), Climb(ts, 0))
    decreases Len(ts), 5
  {
    ClimbAgrees(ts, 0);
    var o := ParseOperand(ts, false);
    if o.Ok? { WrapAllIsFrom(o.value, o.rest); }
  }

  lemma {:induction false} PrefixAgrees(ts: Tokens, lo: int)
    requires lo >= 0
    requires ts.Next? && ts.tok.Sym? && (ts.tok.op.Await? || IsPrefix(ts.tok.op))
    ensures Same(FromOperand(ts, lo), Climb(ts, lo))
    decreases Len(ts), 3
  {
    var op, rest := ts.tok.op, ts.rest;
    var m := Max(lo, Precedence(op, true) + 1);
    PrefixKind(op);
    ClimbAgrees(rest, m);
    var x := ParseOperand(rest, false);
    var o := PrefixOf(op, x);
    assert ParseOperand(ts, false) == o;
    if x.Ok? {
      ParseOperandObeys(rest, false);
      OperandIsFirst(x.value, 0);
      PrefixRest(op, x.value, x.rest, lo);
      var w := WrapFrom(x.value, x.rest, m);
      if w.Ok? && o.Ok? { LoopAgrees(WithRight(o.value, w.value), w.rest, lo); }
    }
  }

  // A prefix operator: the operators that bind tighter go to its operand, and
  // the next one does not.
  lemma {:induction false} PrefixRest(op: Op, x: Expr, ts: Tokens, lo: int)
    requires lo >= 0 && (op.Await? || IsPrefix(op)) && First(x) == x
    ensures
      var o := PrefixOf(op, Ok(x, ts));
      var w := WrapFrom(x, ts, Max(lo, Precedence(op, true) + 1));
      && (w.Ok? ==> ClimbPrefix(op, w).Ok? == o.Ok?)
      && (w.Ok? && o.Ok? ==>
            && ClimbPrefix(op, w) == Ok(WithRight(o.value, w.value), w.rest)
            && Settled(WithRight(o.value, w.value), w.rest, lo))
      && (o.Ok? ==>
            WrapFrom(o.value, ts, lo) == if w.Ok? then WrapFrom(WithRight(o.value, w.value), w.rest, lo) else w)
  {
    var m := Max(lo, Precedence(op, true) + 1);
    var o := PrefixOf(op, Ok(x, ts));
    var w := WrapFrom(x, ts, m);
    if w.Ok? { PrefixClimbs(op, x, ts, w, lo); }
    if o.Ok? {
      PrefixFloor(op, x, ts);
      WrapFromSplits(o.value, ts, lo);
    }
  }

  lemma PrefixFloor(op: Op, x: Expr, ts: Tokens)
    requires (op.Await? || IsPrefix(op)) && PrefixOf(op, Ok(x, ts)).Ok?
    ensures
      var o := PrefixOf(op, Ok(x, ts));
      && HasRight(o.value) && !o.value.par && Right(o.value) == x && o.rest == ts
      && Floor(o.value.body) == Precedence(op, true) + 1
      && forall y :: WithRight(o.value, y) == Expr(if op.Await? then AwaitOf(y) else Prefix(op, y), false)
  {
    PrefixKind(op);
  }

  lemma PrefixClimbs(op: Op, x: Expr, ts: Tokens, w: Result<Expr>, lo: int)
    requires lo >= 0 && (op.Await? || IsPrefix(op)) && First(x) == x
    requires w.Ok? && w == WrapFrom(x, ts, Max(lo, Precedence(op, true) + 1))
    ensures
      var o := PrefixOf(op, Ok(x, ts));
      && ClimbPrefix(op, w).Ok? == o.Ok?
      && (o.Ok? ==>
            && ClimbPrefix(op, w) == Ok(WithRight(o.value, w.value), w.rest)
            && Settled(WithRight(o.value, w.value), w.rest, lo))
  {
    PrefixKind(op);
    WrapFromKeepsFirst(x, ts, Max(lo, Precedence(op, true) + 1));
    if PrefixOf(op, Ok(x, ts)).Ok? {
      PrefixFloor(op, x, ts);
      PrefixSettles(op, x, ts, w, lo);
    }
  }

  lemma PrefixSettles(op: Op, x: Expr, ts: Tokens, w: Result<Expr>, lo: int)
    requires lo >= 0 && (op.Await? || IsPrefix(op))
    requires w.Ok? && w == WrapFrom(x, ts, Max(lo, Precedence(op, true) + 1))
    ensures Settled(Expr(if op.Await? then AwaitOf(w.value) else Prefix(op, w.value), false), w.rest, lo)
  {
    WrapFromStops(x, ts, Max(lo, Precedence(op, true) + 1));
    DescendsFromFloor(Expr(if op.Await? then AwaitOf(w.value) else Prefix(op, w.value), false), Front(w.rest));
  }

  lemma {:induction false} ElementsAgree(ts: Tokens)
    ensures Same(ParseElements(ts, false), ClimbElements(ts))
    decreases Len(ts), 6
  {
    if !Starts(ts, RBrack) {
      ExprAgrees(ts);
      var x := ParseExpr(ts, false);
      if x.Ok? { ElementsAgree(SkipComma(x.rest)); }
    }
  }

  lemma {:induction false} ArgsAgree(ts: Tokens)
    ensures Same(ParseArgs(ts, false), ClimbArgs(ts))
    decreases Len(ts), 6
  {
    if !Starts(ts, RPar) {
      ExprAgrees(SkipName(ts));
      var x := ParseExpr(SkipName(ts), false);
      if x.Ok? { ArgsAgree(SkipComma(x.rest)); }
    }
  }

  // What one step of the loop does, by insertion.
  function StepFrom(l: Expr, it: Result<Item>): Result<Expr> {
    if !it.Ok? then Fail(E0137)
    else
      var e := Attach(l, it.value, false);
      if !e.Good? then Fail(e.err)
      else if HasRight(e.value) then
        var w := WrapFrom(Right(e.value), it.rest, Floor(e.value.body));
        if w.Ok? then Ok(WithRight(e.value, w.value), w.rest) else w
      else Ok(e.value, it.rest)
  }

  function OneStep(l: Expr, ts: Tokens): Result<Expr> { StepFrom(l, ParseItem(ts, false)) }

  lemma {:induction false} StepAgrees(l: Expr, ts: Tokens)
    requires Front(ts) >= 0
    ensures Same(OneStep(l, ts), ClimbStep(l, ts))
    decreases Len(ts), 1
  {
    var op := ts.tok.op;
    assert ts == Next(Sym(op), ts.rest);
    if IsBinary(op) {
      BinaryStepAgrees(l, op, ts.rest);
    } else if IsAssign(op) {
      AssignStepAgrees(l, op, ts.rest);
    } else if op.Qn? {
      CondAgrees(l, ts.rest);
    } else {
      SuffixAgrees(l, ts);
    }
  }

  lemma {:induction false} BinaryStepAgrees(l: Expr, op: Op, ts: Tokens)
    requires IsBinary(op) && Front(Next(Sym(op), ts)) >= 0
    ensures Same(OneStep(l, Next(Sym(op), ts)), ClimbStep(l, Next(Sym(op), ts)))
    decreases Len(ts), 6
  {
    BinaryKind(op);
    ClimbAgrees(ts, Precedence(op, false) + 1);
    BinaryIsRead(l, op, ts);
    BinaryAgrees(l, op, ParseOperand(ts, false), Climb(ts, Precedence(op, false) + 1));
  }

  lemma {:induction false} AssignStepAgrees(l: Expr, op: Op, ts: Tokens)
    requires IsAssign(op) && Front(Next(Sym(op), ts)) >= 0
    ensures Same(OneStep(l, Next(Sym(op), ts)), ClimbStep(l, Next(Sym(op), ts)))
    decreases Len(ts), 6
  {
    AssignKind(op);
    ClimbAgrees(ts, Precedence(op, false));
    AssignIsRead(l, op, ts);
    AssignAgrees(l, op, ParseOperand(ts, false), Climb(ts, Precedence(op, false)));
  }

  lemma {:induction false} SuffixAgrees(l: Expr, ts: Tokens)
    requires Front(ts) >= 0 && !IsBinary(ts.tok.op) && !IsAssign(ts.tok.op) && !ts.tok.op.Qn?
    ensures Same(OneStep(l, ts), ClimbStep(l, ts))
    decreases Len(ts), 0
  {
    if ts.tok.op.LBrack? {
      ExprAgrees(ts.rest);
    } else if ts.tok.op.LPar? {
      ArgsAgree(ts.rest);
    }
  }

  lemma BinaryIsRead(l: Expr, op: Op, ts: Tokens)
    requires IsBinary(op) && Front(Next(Sym(op), ts)) >= 0
    ensures ParseItem(Next(Sym(op), ts), false) == BinaryOf(op, ParseOperand(ts, false))
    ensures ClimbStep(l, Next(Sym(op), ts)) == ClimbBinary(l, op, Climb(ts, Precedence(op, false) + 1))
  {
    BinaryKind(op);
  }

  lemma AssignIsRead(l: Expr, op: Op, ts: Tokens)
    requires IsAssign(op) && Front(Next(Sym(op), ts)) >= 0
    ensures ParseItem(Next(Sym(op), ts), false) == AssignOf(op, ParseOperand(ts, false))
    ensures ClimbStep(l, Next(Sym(op), ts)) == ClimbAssign(l, op, Climb(ts, Precedence(op, false)))
  {
    AssignKind(op);
  }

  lemma BinaryAgrees(l: Expr, op: Op, o: Result<Expr>, c: Result<Expr>)
    requires !RightAssociative(op) && Same(WrapOperand(o, Precedence(op, false) + 1), c)
    ensures Same(StepFrom(l, BinaryOf(op, o)), ClimbBinary(l, op, c))
  {
    if o.Ok? {
      var e := Expr(Binary(l, op, o.value), false);
      assert Attach(l, BinaryItem(op, o.value), false) == Good(e);
      assert Floor(e.body) == Precedence(op, false) + 1;
    }
  }

  lemma AssignAgrees(l: Expr, op: Op, o: Result<Expr>, c: Result<Expr>)
    requires IsAssign(op) && Same(WrapOperand(o, Precedence(op, false)), c)
    ensures Same(StepFrom(l, AssignOf(op, o)), ClimbAssign(l, op, c))
  {
    if o.Ok? && IsAccess(l) {
      var e := Expr(Assign(l, op, o.value), false);
      assert Attach(l, AssignItem(op, o.value), false) == Good(e);
      assert Floor(e.body) == Precedence(op, false);
    }
  }

  lemma CondStep(l: Expr, t: Expr, o: Result<Expr>, c: Result<Expr>)
    requires Same(WrapOperand(o, Precedence(Qn, false)), c)
    ensures
      Same(StepFrom(l, CondOf(t, o)),
           if c.Ok? then Ok(Expr(Cond(l, t, c.value), false), c.rest) else Fail(E0139))
  {
    if o.Ok? {
      var e := Expr(Cond(l, t, o.value), false);
      assert Attach(l, CondItem(t, o.value), false) == Good(e);
    }
  }

  lemma {:induction false} CondAgrees(l: Expr, ts: Tokens)
    ensures Same(OneStep(l, Next(Sym(Qn), ts)), ClimbCond(l, ts))
    decreases Len(ts), 6
  {
    assert ParseItem(Next(Sym(Qn), ts), false) == ParseCond(ts, false);
    ExprAgrees(ts);
    var t := ParseExpr(ts, false);
    if t.Ok? && Starts(t.rest, Colon) {
      var k := t.rest.rest;
      ClimbAgrees(k, Precedence(Qn, false));
      assert ParseCond(ts, false) == CondOf(t.value, ParseOperand(k, false));
      CondStep(l, t.value, ParseOperand(k, false), Climb(k, Precedence(Qn, false)));
    }
  }

  lemma {:induction false} LoopAgrees(l: Expr, ts: Tokens, lo: int)
    requires lo >= 0 && Settled(l, ts, lo)
    ensures Same(WrapFrom(l, ts, lo), ClimbLoop(l, ts, lo))
    decreases Len(ts), 2
  {
    if Front(ts) >= lo {
      StepAgrees(l, ts);
      OneStepIsNext(l, ts, lo);
      var s := OneStep(l, ts);
      if s.Ok? { LoopAgrees(s.value, s.rest, lo); }
    }
  }

  lemma {:induction false} OneStepIsNext(l: Expr, ts: Tokens, lo: int)
    requires lo >= 0 && Front(ts) >= lo && !Descends(l, Front(ts))
    ensures
      var s := OneStep(l, ts);
      && (!s.Ok? ==> !WrapFrom(l, ts, lo).Ok?)
      && (s.Ok? ==> Len(s.rest) < Len(ts) && Settled(s.value, s.rest, lo) &&
                    WrapFrom(l, ts, lo) == WrapFrom(s.value, s.rest, lo))
  {
    ItemIsFront(ts);
    var it := ParseItem(ts, false);
    if it.Ok? && Attach(l, it.value, false).Good? {
      var e := Attach(l, it.value, false).value;
      assert WrapFrom(l, ts, lo) == WrapFrom(e, it.rest, lo);
      if HasRight(e) {
        AttachFloor(l, it.value);
        var w := WrapFrom(Right(e), it.rest, Floor(e.body));
        WrapFromSplits(e, it.rest, lo);
        if w.Ok? {
          WrapFromStops(Right(e), it.rest, Floor(e.body));
          DescendsFromFloor(WithRight(e, w.value), Front(w.rest));
        }
      }
    }
  }

  lemma AttachFloor(l: Expr, it: Item)
    requires Attach(l, it, false).Good?
    ensures
      var e := Attach(l, it, false).value;
      !e.par && (HasRight(e) ==> Floor(e.body) >= ItemPrecedence(it))
  {
  }

  lemma {:induction false} WrapFromStops(e: Expr, ts: Tokens, lo: int)
    requires lo >= 0 && WrapFrom(e, ts, lo).Ok?
    ensures Front(WrapFrom(e, ts, lo).rest) < lo
    decreases Len(ts)
  {
    ItemIsFront(ts);
    var it := ParseItem(ts, false);
    if Front(ts) >= lo { WrapFromStops(Insert(e, it.value, false).value, it.rest, lo); }
  }

  // The parser accepts what the reference parser accepts, and builds its tree.
  lemma InsertionIsClimbing(ts: Tokens)
    ensures ParseExpr(ts, false).Ok? <==> Climb(ts, 0).Ok?
    ensures ParseExpr(ts, false).Ok? ==> ParseExpr(ts, false) == Climb(ts, 0)
  {
    ExprAgrees(ts);
  }
}
