/** The parser as the source runs it against the reference parser. */
module ExprSource {
  import opened Prelude
  import opened Parsing
  import opened ExprSyntax
  import opened ExprSpec
  import opened ExprAccept
  import opened ExprConcat
  import opened ExprJoins
  import opened ExprValue
  import opened ExprClimb

  // It accepts what the reference parser accepts and stops where that stops;
  // the trees are the same if and only if no literals are joined, and the same
  // up to reassociating sums if and only if none are behind another operator
  // than `+`.
  lemma SourceAgainstClimbing(ts: Tokens)
    ensures ParseExpr(ts, true).Ok? <==> Climb(ts, 0).Ok?
    ensures ParseExpr(ts, true).Ok? ==>
      var r, c := ParseExpr(ts, true), Climb(ts, 0);
      && r.rest == c.rest
      && (NoJoin(ts) <==> r == c)
      && (NoBadJoin(ts) <==> Flat(r.value) == c.value)
  {
    ExprAlike(ts);
    InsertionIsClimbing(ts);
    if ParseExpr(ts, true).Ok? {
      RegroupingDoesNothing(ts);
      RegroupingReassociates(ts);
    }
  }

  // A product and a sum of literals, behind another `+`.
  function StarThenPlus(x: string, y: string): Tokens {
    Next(Sym(Star), Next(Str(x), Next(Sym(Plus), Next(Str(y), Eof))))
  }

  lemma LastSumIsFree(y: string)
    ensures ItemsFree(Next(Sym(Plus), Next(Str(y), Eof)), Spot(true, None), true)
  {
    var ts, y' := Next(Sym(Plus), Next(Str(y), Eof)), Expr(StrLit(y), false);
    assert OperandFree(ts.rest, true) && ItemFree(ts, true);
    assert ParseOperand(ts.rest, false) == Ok(y', Eof);
    assert ParseItem(ts, false) == Ok(BinaryItem(Plus, y'), Eof);
    assert ParseItem(Eof, false).Null?;
    assert ItemsFree(Eof, Spot(true, Some(Plus)), true);
  }

  lemma ProductIsFree(x: string, y: string)
    ensures ItemsFree(StarThenPlus(x, y), Spot(true, None), true)
  {
    var ts, x' := StarThenPlus(x, y), Expr(StrLit(x), false);
    var k := ts.rest.rest;
    assert OperandFree(ts.rest, true) && ItemFree(ts, true);
    assert ParseOperand(ts.rest, false) == Ok(x', k);
    assert ParseItem(ts, false) == Ok(BinaryItem(Star, x'), k);
    assert Advance(Spot(true, None), BinaryItem(Star, x')) == Spot(true, None);
    LastSumIsFree(y);
  }

  // Literals behind a product do not join when the product is itself added to
  // something: `b + a * "x" + "y"`.
  lemma AddedProductJoinsNothing(b: string, a: string, x: string, y: string)
    ensures NoJoin(Next(Id(b), Next(Sym(Plus), Next(Id(a), StarThenPlus(x, y)))))
  {
    var k, a' := StarThenPlus(x, y), Expr(Name(a), false);
    var ts := Next(Sym(Plus), Next(Id(a), k));
    assert OperandFree(ts.rest, true) && ItemFree(ts, true);
    assert ParseOperand(ts.rest, false) == Ok(a', k);
    assert ParseItem(ts, false) == Ok(BinaryItem(Plus, a'), k);
    assert Advance(Spot(false, None), BinaryItem(Plus, a')) == Spot(true, None);
    ProductIsFree(x, y);
    assert ItemsFree(ts, Spot(false, None), true);
  }
}
