/** On which token lists string literals are joined, said of the operands and
    operators in the order they are read. */
module ExprJoins {
  import opened Prelude
  import opened Parsing
  import opened ExprSyntax
  import opened ExprSpec
  import opened ExprShape
  import opened ExprSound
  import opened ExprAccept
  import opened ExprConcat

  // ----- Reading from left to right -----

  // What has been read so far: `open`, that the last operator of lower
  // precedence than `*` is a `+` or a `-`; `joiner`, the operator behind whose
  // right operand, a string literal, a `+` would join another.
  datatype Spot = Spot(open: bool, joiner: Option<Op>)

  // A literal joins behind any operator that is not itself within the right
  // operand of a `+` or `-`, and does so once.
  function Advance(s: Spot, it: Item): Spot {
    match it
    case BinaryItem(op, x) =>
      var p := Precedence(op, false);
      if p < Precedence(Plus, false) then Spot(false, None)
      else if op.Plus? && IsStr(x) && s.joiner.Some? then Spot(s.open, None)
      else if p == Precedence(Plus, false) then Spot(true, if IsStr(x) then Some(op) else None)
      else Spot(s.open, if IsStr(x) && !s.open then Some(op) else None)
    case AssignItem(_, _) => Spot(false, None)
    case CondItem(_, _) => Spot(false, None)
    case _ => s.(joiner := None)
  }

  // The next operator joins two literals; without `all`, behind another
  // operator than `+`.
  predicate Joining(s: Spot, it: Item, all: bool) {
    it.BinaryItem? && it.op.Plus? && IsStr(it.right) && s.joiner.Some? && (all || !s.joiner.value.Plus?)
  }

  predicate JoinFree(ts: Tokens, all: bool)
    decreases Len(ts), 2
  {
    var o := ParseOperand(ts, false);
    o.Ok? ==> OperandFree(ts, all) && ItemsFree(o.rest, Spot(false, None), all)
  }

  predicate OperandFree(ts: Tokens, all: bool)
    decreases Len(ts), 1
  {
    ts.Next? && ts.tok.Sym? ==>
      var op := ts.tok.op;
      if op.Await? || IsPrefix(op) then OperandFree(ts.rest, all)
      else if op.LBrack? then ElementsFree(ts.rest, all)
      else if op.LPar? then JoinFree(ts.rest, all)
      else true
  }

  predicate ElementsFree(ts: Tokens, all: bool)
    decreases Len(ts), 3
  {
    Starts(ts, RBrack) ||
    (JoinFree(ts, all) &&
     var r := ParseExpr(ts, false);
     r.Ok? ==> ElementsFree(SkipComma(r.rest), all))
  }

  predicate ArgsFree(ts: Tokens, all: bool)
    decreases Len(ts), 3
  {
    Starts(ts, RPar) ||
    (JoinFree(SkipName(ts), all) &&
     var r := ParseExpr(SkipName(ts), false);
     r.Ok? ==> ArgsFree(SkipComma(r.rest), all))
  }

  predicate ItemFree(ts: Tokens, all: bool)
    decreases Len(ts), 0
  {
    ts.Next? && ts.tok.Sym? ==>
      var op := ts.tok.op;
      if op.LBrack? then JoinFree(ts.rest, all)
      else if op.LPar? then ArgsFree(ts.rest, all)
      else if IsBinary(op) || IsAssign(op) then OperandFree(ts.rest, all)
      else if op.Qn? then
        JoinFree(ts.rest, all) &&
        (var r := ParseExpr(ts.rest, false);
         r.Ok? && Starts(r.rest, Colon) ==> OperandFree(r.rest.rest, all))
      else true
  }

  predicate ItemsFree(ts: Tokens, s: Spot, all: bool)
    decreases Len(ts), 1
  {
    var it := ParseItem(ts, false);
    it.Ok? ==>
      ItemFree(ts, all) && !Joining(s, it.value, all) && ItemsFree(it.rest, Advance(s, it.value), all)
  }

  // No string literals are joined, or none behind another operator than `+`.
  predicate NoJoin(ts: Tokens) { JoinFree(ts, true) }

  predicate NoBadJoin(ts: Tokens) { JoinFree(ts, false) }

  // ----- The same, seen from the tree -----

  // Where a `+` would be attached.
  function Place(e: Expr): (r: Expr)
    ensures !Descends(r, Precedence(Plus, false))
    decreases e.body
  {
    if Descends(e, Precedence(Plus, false)) then Place(Right(e)) else e
  }

  predicate BareBinary(e: Expr) { !e.par && e.body.Binary? }

  function SpotAt(e: Expr): Spot {
    Spot(BareBinary(e) && Precedence(e.body.op, false) == Precedence(Plus, false),
         if BareBinary(e) && IsStr(e.body.right) then Some(e.body.op) else None)
  }

  function SpotOf(e: Expr): Spot { SpotAt(Place(e)) }

  lemma OperandSpot(x: Expr)
    requires IsOperand(x) && Obeys(x, true)
    ensures Place(x) == x && SpotOf(x) == Spot(false, None)
  {
  }

  lemma {:induction false} InsertIsNoStr(e: Expr, it: Item, g: bool)
    requires Insert(e, it, g).Good?
    ensures !IsStr(Insert(e, it, g).value)
  {
    if Descends(e, ItemPrecedence(it)) { DescendsRight(e, it, g); }
  }

  lemma HighPlace(e: Expr)
    requires BareBinary(e) && Precedence(e.body.op, false) >= Precedence(Plus, false)
    requires IsBinary(e.body.op)
    ensures SpotOf(e) == SpotAt(e)
  {
  }

  lemma AttachBinarySpot(e: Expr, op: Op, x: Expr)
    requires Obeys(e, true) && IsBinary(op) && Precedence(op, false) >= Precedence(Plus, false)
    requires !Descends(e, Precedence(op, false)) && !Descends(e, Precedence(Plus, false))
    ensures SpotOf(Attach(e, BinaryItem(op, x), true).value) == Advance(SpotAt(e), BinaryItem(op, x))
  {
    if BareBinary(e) { BareIsBinary(e); }
    HighPlace(Attach(e, BinaryItem(op, x), true).value);
  }

  lemma BareIsBinary(e: Expr)
    requires Obeys(e, true) && e.body.Binary?
    ensures IsBinary(e.body.op)
  {
  }

  lemma AttachSpot(e: Expr, it: Item)
    requires Obeys(e, true) && ItemObeys(it, true) && Attach(e, it, true).Good?
    requires !Descends(e, ItemPrecedence(it)) && !Descends(e, Precedence(Plus, false))
    requires ItemPrecedence(it) >= Precedence(Plus, false)
    ensures SpotOf(Attach(e, it, true).value) == Advance(SpotOf(e), it)
  {
    assert SpotOf(e) == SpotAt(e);
    if it.BinaryItem? {
      AttachBinarySpot(e, it.op, it.right);
    } else {
      if it.AssignItem? { AssignKind(it.op); }
      PostfixSpot(e, it);
    }
  }

  lemma PostfixSpot(e: Expr, it: Item)
    requires Obeys(e, true) && ItemObeys(it, true) && IsPostfix(it) && Attach(e, it, true).Good?
    requires !Descends(e, ItemPrecedence(it))
    ensures SpotOf(Attach(e, it, true).value) == Advance(SpotAt(e), it)
  {
    if BareBinary(e) { PostfixDescends(e, it, true); }
  }

  // An operator of lower precedence than `+` starts afresh.
  lemma AttachLowSpot(e: Expr, it: Item)
    requires ItemObeys(it, true) && Attach(e, it, true).Good? && ItemPrecedence(it) < Precedence(Plus, false)
    ensures SpotOf(Attach(e, it, true).value) == Spot(false, None) == Advance(SpotOf(e), it)
  {
    var r := Attach(e, it, true).value;
    assert Descends(r, Precedence(Plus, false));
    OperandSpot(Right(r));
  }

  // An operator that goes into the right operand of `e`, where `+` would stop.
  lemma DeeperSpot(e: Expr, it: Item)
    requires Obeys(e, true) && ItemObeys(it, true) && Insert(e, it, true).Good?
    requires Descends(e, ItemPrecedence(it)) && !Descends(e, Precedence(Plus, false))
    ensures SpotOf(Insert(e, it, true).value) == Advance(SpotAt(e), it)
  {
    DescendsRight(e, it, true);
    InsertIsNoStr(Right(e), it, true);
    DeeperItem(e, it);
    var r := WithRight(e, Insert(Right(e), it, true).value);
    assert Place(r) == r;
  }

  lemma DeeperItem(e: Expr, it: Item)
    requires Obeys(e, true) && ItemObeys(it, true)
    requires Descends(e, ItemPrecedence(it)) && !Descends(e, Precedence(Plus, false))
    ensures
      || IsPostfix(it)
      || (it.BinaryItem? && Precedence(it.op, false) > Precedence(Plus, false) &&
          BareBinary(e) && Precedence(e.body.op, false) == Precedence(Plus, false))
  {
    if it.BinaryItem? { BinaryKind(it.op); } else if it.AssignItem? { AssignKind(it.op); }
    if !IsPostfix(it) { DeepNode(e, ItemPrecedence(it)); }
  }

  lemma DeepNode(e: Expr, p: int)
    requires Obeys(e, true) && Descends(e, p) && !Descends(e, Precedence(Plus, false)) && p <= 12
    ensures BareBinary(e) && Precedence(e.body.op, false) == Precedence(Plus, false) && p == 12
  {
    if e.body.Binary? { BareIsBinary(e); }
    if e.body.Assign? { AssignedOp(e); }
    if e.body.Prefix? { PrefixedOp(e); }
  }

  lemma AssignedOp(e: Expr)
    requires Obeys(e, true) && e.body.Assign?
    ensures IsAssign(e.body.op) && Precedence(e.body.op, false) == 2
  {
    AssignKind(e.body.op);
  }

  lemma PrefixedOp(e: Expr)
    requires Obeys(e, true) && e.body.Prefix?
    ensures 14 <= Precedence(e.body.op, true)
  {
    PrefixKind(e.body.op);
  }

  lemma LowSpot(e: Expr, it: Item)
    requires Insert(e, it, true).Good? && Descends(e, ItemPrecedence(it)) && Descends(e, Precedence(Plus, false))
    requires Insert(Right(e), it, true).Good?
    ensures SpotOf(Insert(e, it, true).value) == SpotOf(Insert(Right(e), it, true).value)
    ensures SpotOf(e) == SpotOf(Right(e))
  {
    var r := Insert(Right(e), it, true).value;
    assert Insert(e, it, true).value == WithRight(e, r);
    LowPlace(e, r);
  }

  lemma LowPlace(e: Expr, r: Expr)
    requires HasRight(e) && Descends(e, Precedence(Plus, false))
    ensures Place(WithRight(e, r)) == Place(r)
  {
  }

  lemma {:induction false} InsertSpot(e: Expr, it: Item)
    requires Obeys(e, true) && ItemObeys(it, true) && Insert(e, it, true).Good?
    ensures SpotOf(Insert(e, it, true).value) == Advance(SpotOf(e), it)
    decreases e.body
  {
    var p := ItemPrecedence(it);
    if !Descends(e, p) {
      if p < Precedence(Plus, false) {
        AttachLowSpot(e, it);
      } else {
        StopsSooner(e, p);
        AttachSpot(e, it);
      }
    } else if Descends(e, Precedence(Plus, false)) {
      DescendsRight(e, it, true);
      InsertSpot(Right(e), it);
      LowSpot(e, it);
    } else {
      DeeperSpot(e, it);
    }
  }

  lemma StopsSooner(e: Expr, p: int)
    requires !Descends(e, p) && p >= Precedence(Plus, false)
    ensures !Descends(e, Precedence(Plus, false))
  {
  }

  // ----- An insertion joins literals if and only if it is said to -----

  lemma {:induction false} InsertIsNoSum(e: Expr, it: Item)
    requires Insert(e, it, true).Good? && !IsSum(e) && !(it.BinaryItem? && it.op.Plus?)
    ensures !IsSum(Insert(e, it, true).value)
  {
    if Descends(e, ItemPrecedence(it)) { DescendsRight(e, it, true); }
  }

  lemma RightFree(e: Expr, r: Expr, all: bool)
    requires HasRight(e) && Unjoined(e, all) && Unjoined(r, all)
    requires BareBinary(e) && Precedence(e.body.op, false) >= Precedence(Plus, false) && IsSum(r) ==> IsSum(Right(e))
    requires !e.par
    ensures Unjoined(WithRight(e, r), all)
  {
  }

  lemma RightJoined(e: Expr, r: Expr, all: bool)
    requires HasRight(e) && Unjoined(WithRight(e, r), all)
    ensures Unjoined(r, all)
  {
  }

  lemma OperandIsNoSum(x: Expr)
    requires IsOperand(x)
    ensures !IsSum(x)
  {
  }

  lemma AttachFree(e: Expr, it: Item, all: bool)
    requires Obeys(e, true) && ItemObeys(it, true) && Attach(e, it, true).Good?
    requires !Descends(e, ItemPrecedence(it)) && Unjoined(e, all) && ItemUnjoined(it, all)
    ensures Unjoined(Attach(e, it, true).value, all) <==> !Joining(SpotOf(e), it, all)
  {
    if it.BinaryItem? {
      OperandIsNoSum(it.right);
      if it.op.Plus? {
        assert SpotOf(e) == SpotAt(e);
        if Joins(e, it.op, it.right) { JoinIsDisplaced(e, it.right, all); }
      }
    }
  }

  lemma JoinIsDisplaced(e: Expr, x: Expr, all: bool)
    requires Obeys(e, true) && Joins(e, Plus, x) && !Descends(e, Precedence(Plus, false)) && Unjoined(e, all)
    ensures
      Unjoined(Attach(e, BinaryItem(Plus, x), true).value, all) <==> !(all || !e.body.op.Plus?)
  {
    var y := Expr(Binary(e.body.right, Plus, x), false);
    assert IsSum(y) && Unjoined(y, all);
  }

  lemma {:induction false} InsertFree(e: Expr, it: Item, all: bool)
    requires Obeys(e, true) && ItemObeys(it, true) && Insert(e, it, true).Good?
    requires Unjoined(e, all) && ItemUnjoined(it, all)
    ensures Unjoined(Insert(e, it, true).value, all) <==> !Joining(SpotOf(e), it, all)
    decreases e.body
  {
    if !Descends(e, ItemPrecedence(it)) {
      AttachFree(e, it, all);
    } else {
      DescendsRight(e, it, true);
      RightObeys(e);
      RightJoined(e, Right(e), all);
      InsertFree(Right(e), it, all);
      if Descends(e, Precedence(Plus, false)) { LowInsertFree(e, it, all); } else { DeepInsertFree(e, it, all); }
    }
  }

  lemma RightObeys(e: Expr)
    requires Obeys(e, true) && HasRight(e)
    ensures Obeys(Right(e), true) && (!e.par ==> WithRight(e, Right(e)) == e)
  {
  }

  lemma LowInsertFree(e: Expr, it: Item, all: bool)
    requires Obeys(e, true) && Unjoined(e, all) && Insert(e, it, true).Good?
    requires Descends(e, ItemPrecedence(it)) && Descends(e, Precedence(Plus, false)) && Insert(Right(e), it, true).Good?
    requires Unjoined(Insert(Right(e), it, true).value, all) <==> !Joining(SpotOf(Right(e)), it, all)
    ensures Unjoined(Insert(e, it, true).value, all) <==> !Joining(SpotOf(e), it, all)
  {
    var r := Insert(Right(e), it, true).value;
    DescendsRight(e, it, true);
    LowSpot(e, it);
    LowRight(e, true);
    if Unjoined(r, all) { RightFree(e, r, all); } else if Unjoined(WithRight(e, r), all) { RightJoined(e, r, all); }
  }

  lemma DeepInsertFree(e: Expr, it: Item, all: bool)
    requires Obeys(e, true) && ItemObeys(it, true) && Unjoined(e, all) && Insert(e, it, true).Good?
    requires Descends(e, ItemPrecedence(it)) && !Descends(e, Precedence(Plus, false))
    requires Insert(Right(e), it, true).Good?
    requires Unjoined(Insert(Right(e), it, true).value, all) <==> !Joining(SpotOf(Right(e)), it, all)
    ensures Unjoined(Insert(e, it, true).value, all) <==> !Joining(SpotOf(e), it, all)
  {
    DescendsRight(e, it, true);
    DeeperItem(e, it);
    if !IsSum(Right(e)) { InsertIsNoSum(Right(e), it); }
    RightFree(e, Insert(Right(e), it, true).value, all);
  }

  lemma LowRight(e: Expr, g: bool)
    requires Obeys(e, g) && Descends(e, Precedence(Plus, false))
    ensures BareBinary(e) ==> Precedence(e.body.op, false) < Precedence(Plus, false)
  {
  }

  // ----- Token lists -----

  lemma {:induction false} ExprFree(ts: Tokens, all: bool)
    requires ParseExpr(ts, true).Ok?
    ensures JoinFree(ts, all) <==> Unjoined(ParseExpr(ts, true).value, all)
    decreases Len(ts), 2
  {
    var o := ParseOperand(ts, true);
    OperandAlike(ts);
    OperandIsFree(ts, all);
    ParseOperandObeys(ts, true);
    OperandSpot(o.value);
    if Unjoined(o.value, all) {
      WrapFree(o.value, o.rest, all);
    } else if Unjoined(ParseExpr(ts, true).value, all) {
      WrapKeepsJoins(o.value, o.rest, all);
    }
  }

  lemma {:induction false} OperandIsFree(ts: Tokens, all: bool)
    requires ParseOperand(ts, true).Ok?
    ensures OperandFree(ts, all) <==> Unjoined(ParseOperand(ts, true).value, all)
    decreases Len(ts), 1
  {
    if ts.tok.Sym? {
      var op, rest := ts.tok.op, ts.rest;
      if op.Await? || IsPrefix(op) {
        PrefixIsFree(op, ParseOperand(rest, true), all);
        OperandIsFree(rest, all);
      } else if op.LBrack? {
        ElementsAreFree(rest, all);
      } else if op.LPar? {
        ParenIsFree(ParseExpr(rest, true), rest, all);
        ExprFree(rest, all);
      }
    }
  }

  lemma PrefixIsFree(op: Op, r: Result<Expr>, all: bool)
    requires PrefixOf(op, r).Ok?
    ensures r.Ok? && Unjoined(PrefixOf(op, r).value, all) == Unjoined(r.value, all)
  {
  }

  lemma ParenIsFree(r: Result<Expr>, ts: Tokens, all: bool)
    requires ParenOf(r, ts).Ok?
    ensures r.Ok? && Unjoined(ParenOf(r, ts).value, all) == Unjoined(r.value, all)
  {
  }

  lemma {:induction false} ElementsAreFree(ts: Tokens, all: bool)
    requires ParseElements(ts, true).Ok?
    ensures ElementsFree(ts, all) <==> AllUnjoined(ParseElements(ts, true).value, all)
    decreases Len(ts), 3
  {
    if !Starts(ts, RBrack) {
      ExprAlike(ts);
      ExprFree(ts, all);
      ElementsAreFree(SkipComma(ParseExpr(ts, true).rest), all);
    }
  }

  lemma {:induction false} ArgsAreFree(ts: Tokens, all: bool)
    requires ParseArgs(ts, true).Ok?
    ensures ArgsFree(ts, all) <==> ArgsUnjoined(ParseArgs(ts, true).value, all)
    decreases Len(ts), 3
  {
    if !Starts(ts, RPar) {
      var from := SkipName(ts);
      ExprAlike(from);
      ExprFree(from, all);
      ArgsAreFree(SkipComma(ParseExpr(from, true).rest), all);
    }
  }

  lemma {:induction false} ItemIsFree(ts: Tokens, all: bool)
    requires ParseItem(ts, true).Ok?
    ensures ItemFree(ts, all) <==> ItemUnjoined(ParseItem(ts, true).value, all)
    decreases Len(ts), 0
  {
    var op, rest := ts.tok.op, ts.rest;
    if op.LBrack? { ExprFree(rest, all); }
    else if op.LPar? { ArgsAreFree(rest, all); }
    else if IsBinary(op) { BinaryKind(op); OperandIsFree(rest, all); }
    else if IsAssign(op) { AssignKind(op); OperandIsFree(rest, all); }
    else if op.Qn? {
      ExprAlike(rest);
      ExprFree(rest, all);
      OperandIsFree(ParseExpr(rest, true).rest.rest, all);
    }
  }

  // Items that look alike are the same to the scan.
  lemma SameAdvance(s: Spot, it: Item, it': Item, all: bool)
    requires ItemViewOf(it) == ItemViewOf(it') && (it.BinaryItem? ==> IsOperand(it.right) && IsOperand(it'.right))
    ensures Advance(s, it) == Advance(s, it') && Joining(s, it, all) == Joining(s, it', all)
  {
    if it.BinaryItem? {
      OperandView(it.right);
      OperandView(it'.right);
      AccessSeen(it.right);
      AccessSeen(it'.right);
    }
  }

  lemma SameScan(ts: Tokens, s: Spot, all: bool)
    requires ParseItem(ts, true).Ok? && ParseItem(ts, false).Ok?
    ensures
      var it, it' := ParseItem(ts, true).value, ParseItem(ts, false).value;
      && Advance(s, it) == Advance(s, it') && Joining(s, it, all) == Joining(s, it', all)
      && (ItemFree(ts, all) <==> ItemUnjoined(it, all))
    decreases Len(ts), 1
  {
    ItemAlike(ts);
    ParseItemObeys(ts, true);
    ParseItemObeys(ts, false);
    ItemIsFree(ts, all);
    SameAdvance(s, ParseItem(ts, true).value, ParseItem(ts, false).value, all);
  }

  lemma {:induction false} WrapFree(e: Expr, ts: Tokens, all: bool)
    requires Obeys(e, true) && Unjoined(e, all) && WrapAll(e, ts, true).Ok?
    ensures ItemsFree(ts, SpotOf(e), all) <==> Unjoined(WrapAll(e, ts, true).value, all)
    decreases Len(ts), 2
  {
    ItemAlike(ts);
    var it := ParseItem(ts, true);
    if it.Ok? {
      ParseItemObeys(ts, true);
      SameScan(ts, SpotOf(e), all);
      var e1 := Insert(e, it.value, true).value;
      if Unjoined(WrapAll(e, ts, true).value, all) {
        WrapKeepsJoins(e1, it.rest, all);
        InsertKeepsDisplaced(e, it.value, all);
      }
      if ItemUnjoined(it.value, all) { InsertFree(e, it.value, all); }
      if Unjoined(e1, all) {
        InsertSpot(e, it.value);
        InsertKeepsObeys(e, it.value, true);
        WrapFree(e1, it.rest, all);
      }
    }
  }
}
