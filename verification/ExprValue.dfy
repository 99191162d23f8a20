/** Regrouping string literals keeps the value of an expression, for every
    associative `+`, if and only if it happens under `+` only. */
module ExprValue {
  import opened Prelude
  import opened Parsing
  import opened ExprSyntax
  import opened ExprSpec
  import opened ExprShape
  import opened ExprRound
  import opened ExprSound
  import opened ExprAccept
  import opened ExprConcat
  import opened ExprJoins

  // ----- The parser without regrouping builds the left-associated tree -----

  lemma {:induction false} ExprFlat(ts: Tokens)
    requires ParseExpr(ts, true).Ok? && Unjoined(ParseExpr(ts, true).value, false)
    ensures ParseExpr(ts, false) == Ok(Flat(ParseExpr(ts, true).value), ParseExpr(ts, true).rest)
    decreases Len(ts), 2
  {
    var o := ParseOperand(ts, true);
    WrapKeepsJoins(o.value, o.rest, false);
    OperandFlat(ts);
    ParseOperandObeys(ts, true);
    WrapFlat(o.value, o.rest);
  }

  lemma {:induction false} OperandFlat(ts: Tokens)
    requires ParseOperand(ts, true).Ok? && Unjoined(ParseOperand(ts, true).value, false)
    ensures ParseOperand(ts, false) == Ok(Flat(ParseOperand(ts, true).value), ParseOperand(ts, true).rest)
    decreases Len(ts), 1
  {
    if ts.tok.Sym? {
      var op, rest := ts.tok.op, ts.rest;
      if op.Await? || IsPrefix(op) { OperandFlat(rest); }
      else if op.LBrack? { ElementsFlat(rest); }
      else if op.LPar? { ExprFlat(rest); }
    }
  }

  lemma {:induction false} ElementsFlat(ts: Tokens)
    requires ParseElements(ts, true).Ok? && AllUnjoined(ParseElements(ts, true).value, false)
    ensures ParseElements(ts, false) == Ok(FlatAll(ParseElements(ts, true).value), ParseElements(ts, true).rest)
    decreases Len(ts), 3
  {
    if !Starts(ts, RBrack) {
      ExprFlat(ts);
      ElementsFlat(SkipComma(ParseExpr(ts, true).rest));
    }
  }

  lemma {:induction false} ArgsFlat(ts: Tokens)
    requires ParseArgs(ts, true).Ok? && ArgsUnjoined(ParseArgs(ts, true).value, false)
    ensures ParseArgs(ts, false) == Ok(FlatArgs(ParseArgs(ts, true).value), ParseArgs(ts, true).rest)
    decreases Len(ts), 3
  {
    if !Starts(ts, RPar) {
      var from := SkipName(ts);
      ExprFlat(from);
      ArgsFlat(SkipComma(ParseExpr(from, true).rest));
    }
  }

  lemma {:induction false} ItemFlat(ts: Tokens)
    requires ParseItem(ts, true).Ok? && ItemUnjoined(ParseItem(ts, true).value, false)
    ensures ParseItem(ts, false) == Ok(FlatItem(ParseItem(ts, true).value), ParseItem(ts, true).rest)
    decreases Len(ts), 0
  {
    var op, rest := ts.tok.op, ts.rest;
    if op.LBrack? { ExprFlat(rest); }
    else if op.LPar? { ArgsFlat(rest); }
    else if IsBinary(op) || IsAssign(op) { OperandFlat(rest); }
    else if op.Qn? {
      ExprFlat(rest);
      OperandFlat(ParseExpr(rest, true).rest.rest);
    }
  }

  lemma {:induction false} WrapFlat(e: Expr, ts: Tokens)
    requires Obeys(e, true) && WrapAll(e, ts, true).Ok? && Unjoined(WrapAll(e, ts, true).value, false)
    ensures WrapAll(Flat(e), ts, false) == Ok(Flat(WrapAll(e, ts, true).value), WrapAll(e, ts, true).rest)
    decreases Len(ts), 1
  {
    var it := ParseItem(ts, true);
    if it.Ok? {
      var e1 := Insert(e, it.value, true).value;
      WrapKeepsJoins(e1, it.rest, false);
      InsertKeepsDisplaced(e, it.value, false);
      ItemFlat(ts);
      ParseItemObeys(ts, true);
      InsertFlat(e, it.value);
      InsertKeepsObeys(e, it.value, true);
      WrapFlat(e1, it.rest);
    } else {
      NoItemEnds(ts, true);
      assert ParseItem(ts, false).Null?;
    }
  }

  // ----- and only then -----

  lemma {:induction false} FlatObeysOnlySums(e: Expr)
    requires Obeys(e, true) && Obeys(Flat(e), false)
    ensures Unjoined(e, false)
    decreases e, 1
  {
    match e.body
    case Name(_) =>
    case DotName(_) =>
    case Literal(_) =>
    case StrLit(_) =>
    case Prop(x, p) =>
      assert Flat(e).body == Prop(Flat(x), p);
      FlatObeysOnlySums(x);
    case Index(x, y) =>
      assert Flat(e).body == Index(Flat(x), Flat(y));
      FlatObeysOnlySums(x); FlatObeysOnlySums(y);
    case Array(xs) =>
      assert Flat(e).body == Array(FlatAll(xs));
      AllFlatObeyOnlySums(xs);
    case AwaitOf(x) =>
      assert Flat(e).body == AwaitOf(Flat(x));
      FlatObeysOnlySums(x);
    case Prefix(op, x) =>
      assert Flat(e).body == Prefix(op, Flat(x));
      FlatObeysOnlySums(x);
    case Postfix(x, op) =>
      assert Flat(e).body == Postfix(Flat(x), op);
      FlatObeysOnlySums(x);
    case Binary(_, _, _) => BinaryFlatObeysOnlySums(e);
    case Assign(_, _, _) => AssignFlatObeysOnlySums(e);
    case Cond(_, _, _) => CondFlatObeysOnlySums(e);
    case Call(x, args) =>
      assert Flat(e).body == Call(Flat(x), FlatArgs(args));
      FlatObeysOnlySums(x); ArgsFlatObeyOnlySums(args);
  }

  lemma {:induction false} BinaryFlatObeysOnlySums(e: Expr)
    requires e.body.Binary? && Obeys(e, true) && Obeys(Flat(e), false)
    ensures Unjoined(e, false)
    decreases e, 0
  {
    var x, y := e.body.left, e.body.right;
    if e.body.op.Plus? && IsSum(y) {
      RegroupedFlatObeys(e);
      FlatObeysOnlySums(x);
      FlatObeysOnlySums(y.body.right);
    } else {
      assert Flat(e).body == Binary(Flat(x), e.body.op, Flat(y));
      FlatObeysOnlySums(x);
      FlatObeysOnlySums(y);
      BareSumObeysNot(Flat(e));
    }
  }

  lemma {:induction false} AssignFlatObeysOnlySums(e: Expr)
    requires e.body.Assign? && Obeys(e, true) && Obeys(Flat(e), false)
    ensures Unjoined(e, false)
    decreases e, 0
  {
    assert Flat(e).body == Assign(Flat(e.body.left), e.body.op, Flat(e.body.right));
    FlatObeysOnlySums(e.body.left);
    FlatObeysOnlySums(e.body.right);
  }

  lemma {:induction false} CondFlatObeysOnlySums(e: Expr)
    requires e.body.Cond? && Obeys(e, true) && Obeys(Flat(e), false)
    ensures Unjoined(e, false)
    decreases e, 0
  {
    assert Flat(e).body == Cond(Flat(e.body.cond), Flat(e.body.thn), Flat(e.body.alt));
    FlatObeysOnlySums(e.body.cond);
    FlatObeysOnlySums(e.body.thn);
    FlatObeysOnlySums(e.body.alt);
  }

  lemma BareSumObeysNot(e: Expr)
    requires Obeys(e, false) && e.body.Binary?
    ensures !Displaced(e.body, true)
  {
    if IsSum(e.body.right) { assert Precedence(Plus, false) >= Floor(e.body); }
  }

  lemma RegroupedFlatObeys(e: Expr)
    requires Obeys(e, true) && Obeys(Flat(e), false)
    requires e.body.Binary? && e.body.op.Plus? && IsSum(e.body.right)
    ensures Obeys(Flat(e.body.left), false) && Obeys(Flat(e.body.right.body.right), false)
    ensures IsStr(e.body.right.body.left) && !IsSum(e.body.right.body.right)
  {
    var x, y := e.body.left, e.body.right;
    var s, r := y.body.left, y.body.right;
    assert Regrouped(e.body);
    TightIsNoSum(r, Floor(e.body));
    assert Flat(y) == Expr(Binary(Flat(s), Plus, Flat(r)), false);
    assert FlatBody(e.body) == Chain(Flat(x), Plus, Flat(y)).body;
    assert Chain(Flat(x), Plus, Flat(s)) == Expr(Binary(Flat(x), Plus, Flat(s)), false);
    assert FlatBody(e.body) == Binary(Expr(Binary(Flat(x), Plus, Flat(s)), false), Plus, Flat(r));
  }

  lemma {:induction false} AllFlatObeyOnlySums(xs: Exprs)
    requires ObeyAll(xs, true) && ObeyAll(FlatAll(xs), false)
    ensures AllUnjoined(xs, false)
    decreases xs
  {
    match xs
    case NoExprs =>
    case MoreExprs(x, others) => FlatObeysOnlySums(x); AllFlatObeyOnlySums(others);
  }

  lemma {:induction false} ArgsFlatObeyOnlySums(xs: Args)
    requires ObeyArgs(xs, true) && ObeyArgs(FlatArgs(xs), false)
    ensures ArgsUnjoined(xs, false)
    decreases xs
  {
    match xs
    case NoArgs =>
    case MoreArgs(_, x, others) => FlatObeysOnlySums(x); ArgsFlatObeyOnlySums(others);
  }

  // Regrouping does no more than reassociate sums, if and only if no two
  // literals are joined behind another operator than `+`.
  lemma RegroupingReassociates(ts: Tokens)
    requires ParseExpr(ts, true).Ok?
    ensures
      var r := ParseExpr(ts, true);
      NoBadJoin(ts) <==> ParseExpr(ts, false) == Ok(Flat(r.value), r.rest)
  {
    var e := ParseExpr(ts, true).value;
    ExprFree(ts, false);
    if Unjoined(e, false) {
      ExprFlat(ts);
    } else if ParseExpr(ts, false) == Ok(Flat(e), ParseExpr(ts, true).rest) {
      ParseExprObeys(ts, true);
      ParseExprObeys(ts, false);
      FlatObeysOnlySums(e);
    }
  }

  // ----- Trees without joined literals -----

  lemma {:induction false} PlainIsUnjoined(e: Expr)
    requires Obeys(e, false)
    ensures Unjoined(e, true)
    decreases e
  {
    match e.body
    case Name(_) =>
    case DotName(_) =>
    case Literal(_) =>
    case StrLit(_) =>
    case Prop(x, _) => PlainIsUnjoined(x);
    case Index(x, y) => PlainIsUnjoined(x); PlainIsUnjoined(y);
    case Array(xs) => PlainAreUnjoined(xs);
    case AwaitOf(x) => PlainIsUnjoined(x);
    case Prefix(_, x) => PlainIsUnjoined(x);
    case Postfix(x, _) => PlainIsUnjoined(x);
    case Binary(x, _, y) =>
      BareSumObeysNot(e);
      PlainIsUnjoined(x);
      PlainIsUnjoined(y);
    case Assign(x, _, y) => PlainIsUnjoined(x); PlainIsUnjoined(y);
    case Cond(x, y, z) => PlainIsUnjoined(x); PlainIsUnjoined(y); PlainIsUnjoined(z);
    case Call(x, args) => PlainIsUnjoined(x); PlainArgsAreUnjoined(args);
  }

  lemma {:induction false} PlainAreUnjoined(xs: Exprs)
    requires ObeyAll(xs, false)
    ensures AllUnjoined(xs, true)
    decreases xs
  {
    match xs
    case NoExprs =>
    case MoreExprs(x, others) => PlainIsUnjoined(x); PlainAreUnjoined(others);
  }

  lemma {:induction false} PlainArgsAreUnjoined(xs: Args)
    requires ObeyArgs(xs, false)
    ensures ArgsUnjoined(xs, true)
    decreases xs
  {
    match xs
    case NoArgs =>
    case MoreArgs(_, x, others) => PlainIsUnjoined(x); PlainArgsAreUnjoined(others);
  }

  lemma {:induction false} UnjoinedIsFlat(e: Expr)
    requires Unjoined(e, true)
    ensures Flat(e) == e && Unjoined(e, false)
    decreases e
  {
    match e.body
    case Name(_) =>
    case DotName(_) =>
    case Literal(_) =>
    case StrLit(_) =>
    case Prop(x, _) => UnjoinedIsFlat(x);
    case Index(x, y) => UnjoinedIsFlat(x); UnjoinedIsFlat(y);
    case Array(xs) => UnjoinedAreFlat(xs);
    case AwaitOf(x) => UnjoinedIsFlat(x);
    case Prefix(_, x) => UnjoinedIsFlat(x);
    case Postfix(x, _) => UnjoinedIsFlat(x);
    case Binary(x, op, y) =>
      UnjoinedIsFlat(x);
      UnjoinedIsFlat(y);
      assert op.Plus? ==> !IsSum(y);
    case Assign(x, _, y) => UnjoinedIsFlat(x); UnjoinedIsFlat(y);
    case Cond(x, y, z) => UnjoinedIsFlat(x); UnjoinedIsFlat(y); UnjoinedIsFlat(z);
    case Call(x, args) => UnjoinedIsFlat(x); UnjoinedArgsAreFlat(args);
  }

  lemma {:induction false} UnjoinedAreFlat(xs: Exprs)
    requires AllUnjoined(xs, true)
    ensures FlatAll(xs) == xs && AllUnjoined(xs, false)
    decreases xs
  {
    match xs
    case NoExprs =>
    case MoreExprs(x, others) => UnjoinedIsFlat(x); UnjoinedAreFlat(others);
  }

  lemma {:induction false} UnjoinedArgsAreFlat(xs: Args)
    requires ArgsUnjoined(xs, true)
    ensures FlatArgs(xs) == xs && ArgsUnjoined(xs, false)
    decreases xs
  {
    match xs
    case NoArgs =>
    case MoreArgs(_, x, others) => UnjoinedIsFlat(x); UnjoinedArgsAreFlat(others);
  }

  // Regrouping leaves the tree alone if and only if no literals are joined.
  lemma RegroupingDoesNothing(ts: Tokens)
    requires ParseExpr(ts, true).Ok?
    ensures NoJoin(ts) <==> ParseExpr(ts, true) == ParseExpr(ts, false)
  {
    var e := ParseExpr(ts, true).value;
    ExprFree(ts, true);
    if Unjoined(e, true) {
      UnjoinedIsFlat(e);
      ExprFlat(ts);
    } else if ParseExpr(ts, true) == ParseExpr(ts, false) {
      ParseExprObeys(ts, false);
      PlainIsUnjoined(e);
    }
  }

  // ----- Values -----

  // A compositional reading of expressions.
  datatype Meaning<!V> = Meaning(
    leaf: Body -> V,
    group: V -> V,
    prop: (V, string) -> V,
    index: (V, V) -> V,
    list: seq<V> -> V,
    awaited: V -> V,
    prefix: (Op, V) -> V,
    postfix: (V, Op) -> V,
    binary: (V, Op, V) -> V,
    assign: (V, Op, V) -> V,
    cond: (V, V, V) -> V,
    call: (V, seq<(Option<string>, V)>) -> V)

  function Value<V>(e: Expr, m: Meaning<V>): V
    decreases e, 0
  {
    if e.par then m.group(BodyValue(e.body, m)) else BodyValue(e.body, m)
  }

  function BodyValue<V>(b: Body, m: Meaning<V>): V
    decreases b, 0
  {
    match b
    case Name(_) => m.leaf(b)
    case DotName(_) => m.leaf(b)
    case Literal(_) => m.leaf(b)
    case StrLit(_) => m.leaf(b)
    case Prop(x, p) => m.prop(Value(x, m), p)
    case Index(x, y) => m.index(Value(x, m), Value(y, m))
    case Array(xs) => m.list(Values(xs, m))
    case AwaitOf(x) => m.awaited(Value(x, m))
    case Prefix(op, x) => m.prefix(op, Value(x, m))
    case Postfix(x, op) => m.postfix(Value(x, m), op)
    case Binary(x, op, y) => m.binary(Value(x, m), op, Value(y, m))
    case Assign(x, op, y) => m.assign(Value(x, m), op, Value(y, m))
    case Cond(x, y, z) => m.cond(Value(x, m), Value(y, m), Value(z, m))
    case Call(x, args) => m.call(Value(x, m), ArgValues(args, m))
  }

  function Values<V>(xs: Exprs, m: Meaning<V>): seq<V>
    decreases xs
  {
    match xs
    case NoExprs => []
    case MoreExprs(x, others) => [Value(x, m)] + Values(others, m)
  }

  function ArgValues<V>(xs: Args, m: Meaning<V>): seq<(Option<string>, V)>
    decreases xs
  {
    match xs
    case NoArgs => []
    case MoreArgs(id, x, others) => [(id, Value(x, m))] + ArgValues(others, m)
  }

  ghost predicate SumIsAssociative<V(!new)>(m: Meaning<V>) {
    forall a, b, c :: m.binary(a, Plus, m.binary(b, Plus, c)) == m.binary(m.binary(a, Plus, b), Plus, c)
  }

  lemma {:induction false} ChainValue<V(!new)>(x: Expr, op: Op, y: Expr, m: Meaning<V>)
    requires SumIsAssociative(m)
    ensures Value(Chain(x, op, y), m) == m.binary(Value(x, m), op, Value(y, m))
    decreases y
  {
    if op.Plus? && IsSum(y) { ChainValue(x, Plus, y.body.left, m); }
  }

  lemma {:induction false} FlatValue<V(!new)>(e: Expr, m: Meaning<V>)
    requires SumIsAssociative(m)
    ensures Value(Flat(e), m) == Value(e, m)
    decreases e
  {
    match e.body
    case Name(_) =>
    case DotName(_) =>
    case Literal(_) =>
    case StrLit(_) =>
    case Prop(x, _) => FlatValue(x, m);
    case Index(x, y) => FlatValue(x, m); FlatValue(y, m);
    case Array(xs) => FlatValues(xs, m);
    case AwaitOf(x) => FlatValue(x, m);
    case Prefix(_, x) => FlatValue(x, m);
    case Postfix(x, _) => FlatValue(x, m);
    case Binary(x, op, y) =>
      FlatValue(x, m);
      FlatValue(y, m);
      ChainValue(Flat(x), op, Flat(y), m);
      assert BodyValue(Flat(e).body, m) == Value(Chain(Flat(x), op, Flat(y)), m);
    case Assign(x, _, y) => FlatValue(x, m); FlatValue(y, m);
    case Cond(x, y, z) => FlatValue(x, m); FlatValue(y, m); FlatValue(z, m);
    case Call(x, args) => FlatValue(x, m); FlatArgValues(args, m);
  }

  lemma {:induction false} FlatValues<V(!new)>(xs: Exprs, m: Meaning<V>)
    requires SumIsAssociative(m)
    ensures Values(FlatAll(xs), m) == Values(xs, m)
    decreases xs
  {
    match xs
    case NoExprs =>
    case MoreExprs(x, others) => FlatValue(x, m); FlatValues(others, m);
  }

  lemma {:induction false} FlatArgValues<V(!new)>(xs: Args, m: Meaning<V>)
    requires SumIsAssociative(m)
    ensures ArgValues(FlatArgs(xs), m) == ArgValues(xs, m)
    decreases xs
  {
    match xs
    case NoArgs =>
    case MoreArgs(_, x, others) => FlatValue(x, m); FlatArgValues(others, m);
  }

  // The tree the parser builds has the value the operator tables give its
  // tokens, whatever they mean, if `+` is associative.
  lemma RegroupingKeepsValue<V(!new)>(ts: Tokens, m: Meaning<V>)
    requires ParseExpr(ts, true).Ok? && NoBadJoin(ts) && SumIsAssociative(m)
    ensures ParseExpr(ts, false).Ok?
    ensures Value(ParseExpr(ts, true).value, m) == Value(ParseExpr(ts, false).value, m)
  {
    RegroupingReassociates(ts);
    FlatValue(ParseExpr(ts, true).value, m);
  }

  // ----- A meaning that tells -----

  function ToExprs(xs: seq<Expr>): Exprs {
    if xs == [] then NoExprs else MoreExprs(xs[0], ToExprs(xs[1..]))
  }

  function ToArgs(xs: seq<(Option<string>, Expr)>): Args {
    if xs == [] then NoArgs else MoreArgs(xs[0].0, xs[0].1, ToArgs(xs[1..]))
  }

  // Expressions themselves, up to reassociating sums.
  function Free(): Meaning<Expr> {
    Meaning(
      b => Expr(b, false), (x: Expr) => Expr(x.body, true), (x, p) => Expr(Prop(x, p), false),
      (x, y) => Expr(Index(x, y), false), xs => Expr(Array(ToExprs(xs)), false), x => Expr(AwaitOf(x), false),
      (op, x) => Expr(Prefix(op, x), false), (x, op) => Expr(Postfix(x, op), false), (x, op, y) => Chain(x, op, y),
      (x, op, y) => Expr(Assign(x, op, y), false), (x, y, z) => Expr(Cond(x, y, z), false),
      (x, args) => Expr(Call(x, ToArgs(args)), false))
  }

  lemma {:induction false} ChainIsAssociative(a: Expr, b: Expr, c: Expr)
    ensures Chain(a, Plus, Chain(b, Plus, c)) == Chain(Chain(a, Plus, b), Plus, c)
    decreases c
  {
    if IsSum(c) { ChainIsAssociative(a, b, c.body.left); }
  }

  lemma FreeIsAssociative()
    ensures SumIsAssociative(Free())
  {
    forall a, b, c
      ensures Free().binary(a, Plus, Free().binary(b, Plus, c)) == Free().binary(Free().binary(a, Plus, b), Plus, c)
    {
      ChainIsAssociative(a, b, c);
    }
  }

  lemma {:induction false} FreeValue(e: Expr)
    ensures Value(e, Free()) == Flat(e)
    decreases e
  {
    match e.body
    case Name(_) =>
    case DotName(_) =>
    case Literal(_) =>
    case StrLit(_) =>
    case Prop(x, _) => FreeValue(x);
    case Index(x, y) => FreeValue(x); FreeValue(y);
    case Array(xs) => FreeValues(xs);
    case AwaitOf(x) => FreeValue(x);
    case Prefix(_, x) => FreeValue(x);
    case Postfix(x, _) => FreeValue(x);
    case Binary(x, _, y) => FreeValue(x); FreeValue(y);
    case Assign(x, _, y) => FreeValue(x); FreeValue(y);
    case Cond(x, y, z) => FreeValue(x); FreeValue(y); FreeValue(z);
    case Call(x, args) => FreeValue(x); FreeArgValues(args);
  }

  lemma {:induction false} FreeValues(xs: Exprs)
    ensures ToExprs(Values(xs, Free())) == FlatAll(xs)
    decreases xs
  {
    match xs
    case NoExprs =>
    case MoreExprs(x, others) =>
      FreeValue(x);
      FreeValues(others);
      assert Values(xs, Free())[1..] == Values(others, Free());
  }

  lemma {:induction false} FreeArgValues(xs: Args)
    ensures ToArgs(ArgValues(xs, Free())) == FlatArgs(xs)
    decreases xs
  {
    match xs
    case NoArgs =>
    case MoreArgs(_, x, others) =>
      FreeValue(x);
      FreeArgValues(others);
      assert ArgValues(xs, Free())[1..] == ArgValues(others, Free());
  }

  // There is a meaning with an associative `+` under which the values are the
  // same only where no two literals are joined behind another operator.
  lemma FreeMeaningTells(ts: Tokens)
    requires ParseExpr(ts, true).Ok?
    ensures SumIsAssociative(Free()) && ParseExpr(ts, false).Ok?
    ensures Value(ParseExpr(ts, true).value, Free()) == Value(ParseExpr(ts, false).value, Free()) <==> NoBadJoin(ts)
  {
    FreeIsAssociative();
    ExprAlike(ts);
    var e, e' := ParseExpr(ts, true).value, ParseExpr(ts, false).value;
    FreeValue(e);
    FreeValue(e');
    ParseExprObeys(ts, false);
    PlainIsUnjoined(e');
    UnjoinedIsFlat(e');
    RegroupingReassociates(ts);
  }

  function Arithmetic(): Meaning<int> {
    Meaning(
      (b: Body) => if b.Name? then 2 else 1, x => x, (x, p) => x, (x, y) => x, xs => 0, x => x, (op, x) => x,
      (x, op) => x, (x: int, op: Op, y: int) => if op.Plus? then x + y else if op.Star? then x * y else 0,
      (x, op, y) => y, (x, y, z) => x, (x, args) => x)
  }

  lemma ArithmeticOf(x: Expr, op: Op, y: Expr)
    ensures
      Value(Expr(Binary(x, op, y), false), Arithmetic()) ==
      Arithmetic().binary(Value(x, Arithmetic()), op, Value(y, Arithmetic()))
  {
    assert BodyValue(Binary(x, op, y), Arithmetic()) ==
      Arithmetic().binary(Value(x, Arithmetic()), op, Value(y, Arithmetic()));
  }

  function ProductThenSum(a: string, x: string, y: string): Tokens {
    Next(Id(a), Next(Sym(Star), Next(Str(x), Next(Sym(Plus), Next(Str(y), Eof)))))
  }

  function ProductOfSum(a: Expr, x: Expr, y: Expr): Expr {
    Expr(Binary(a, Star, Expr(Binary(x, Plus, y), false)), false)
  }

  function SumOfProduct(a: Expr, x: Expr, y: Expr): Expr {
    Expr(Binary(Expr(Binary(a, Star, x), false), Plus, y), false)
  }

  lemma DifferentValues(a: Expr, x: Expr, y: Expr)
    requires Value(a, Arithmetic()) == 2 && Value(x, Arithmetic()) == 1 && Value(y, Arithmetic()) == 1
    ensures Value(ProductOfSum(a, x, y), Arithmetic()) != Value(SumOfProduct(a, x, y), Arithmetic())
  {
    ArithmeticOf(x, Plus, y);
    ArithmeticOf(a, Star, Expr(Binary(x, Plus, y), false));
    ArithmeticOf(a, Star, x);
    ArithmeticOf(Expr(Binary(a, Star, x), false), Plus, y);
    assert Arithmetic().binary(2, Star, 2) == 4 && Arithmetic().binary(2, Plus, 1) == 3;
  }

  // It does not, after `*`: `a * "x" + "y"` is read as `a * ("x" + "y")`.
  lemma RegroupingAfterProduct(a: string, x: string, y: string)
    ensures
      var ts := ProductThenSum(a, x, y);
      && SumIsAssociative(Arithmetic())
      && ParseExpr(ts, true).Ok? && ParseExpr(ts, false).Ok?
      && Value(ParseExpr(ts, true).value, Arithmetic()) != Value(ParseExpr(ts, false).value, Arithmetic())
  {
    var a', x', y' := Expr(Name(a), false), Expr(StrLit(x), false), Expr(StrLit(y), false);
    var l := BinaryItem(Plus, y');
    assert Insert(Expr(Binary(a', Star, x'), false), l, true) == Good(ProductOfSum(a', x', y'));
    assert Insert(Expr(Binary(a', Star, x'), false), l, false) == Good(SumOfProduct(a', x', y'));
    ReadsProductThenSum(a, x, y, true, ProductOfSum(a', x', y'));
    ReadsProductThenSum(a, x, y, false, SumOfProduct(a', x', y'));
    DifferentValues(a', x', y');
  }

  lemma ReadsProductThenSum(a: string, x: string, y: string, g: bool, e: Expr)
    requires
      var a', x', y' := Expr(Name(a), false), Expr(StrLit(x), false), Expr(StrLit(y), false);
      Insert(Expr(Binary(a', Star, x'), false), BinaryItem(Plus, y'), g) == Good(e)
    ensures ParseExpr(ProductThenSum(a, x, y), g) == Ok(e, Eof)
  {
    var a', x', y' := Expr(Name(a), false), Expr(StrLit(x), false), Expr(StrLit(y), false);
    var ts2 := Next(Sym(Plus), Next(Str(y), Eof));
    var ts1 := Next(Sym(Star), Next(Str(x), ts2));
    var l := Expr(Binary(a', Star, x'), false);
    InfixReads(Plus, Next(Str(y), Eof), y', Eof, g);
    assert ParseItem(Eof, g).Null?;
    assert WrapAll(e, Eof, g) == Ok(e, Eof);
    assert WrapAll(l, ts2, g) == WrapAll(e, Eof, g);
    InfixReads(Star, Next(Str(x), ts2), x', ts2, g);
    assert Insert(a', BinaryItem(Star, x'), g) == Good(l);
    assert WrapAll(a', ts1, g) == WrapAll(l, ts2, g);
  }
}
