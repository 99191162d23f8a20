/** Regrouping string literals changes trees, but never what the parser accepts,
    where it stops or which error it reports. */
module ExprAccept {
  import opened Prelude
  import opened Parsing
  import opened ExprSyntax
  import opened ExprSpec
  import opened ExprShape
  import opened ExprSound

  // ----- What the next operator can see of a tree -----

  // The last operand: prefix operators around something that may be an access,
  // a name or a string literal.
  datatype Grip = Leaf(access: bool, name: bool, str: bool) | Held(op: Op, inner: Grip)

  // `whole` says that no binary operator stands between the last operand and
  // where an assignment would go; `alone`, that the tree is one operand.
  datatype View = View(grip: Grip, whole: bool, alone: bool)

  function GripOf(e: Expr): Grip
    decreases e
  {
    if !e.par && e.body.Prefix? then Held(e.body.op, GripOf(e.body.arg))
    else if !e.par && e.body.AwaitOf? then Held(Await, GripOf(e.body.arg))
    else Leaf(IsAccess(e), e.body.Name?, IsStr(e))
  }

  predicate Infix(e: Expr) { !e.par && (e.body.Binary? || e.body.Assign? || e.body.Cond?) }

  function LastOperand(e: Expr): (r: Expr)
    ensures !Infix(r) && (!Infix(e) ==> r == e)
    decreases e.body
  {
    if Infix(e) then LastOperand(Right(e)) else e
  }

  predicate Whole(e: Expr)
    decreases e.body
  {
    if Infix(e) then !e.body.Binary? && Whole(Right(e)) else true
  }

  function ViewOf(e: Expr): View { View(GripOf(LastOperand(e)), Whole(e), !Infix(e)) }

  datatype ItemView =
    | AccessView | CallView | StepView
    | BinaryView(op: Op, grip: Grip) | AssignView(grip: Grip) | CondView(grip: Grip)

  function ItemViewOf(it: Item): ItemView {
    match it
    case PropItem(_) => AccessView
    case IndexItem(_) => AccessView
    case CallItem(_) => CallView
    case StepItem(_) => StepView
    case BinaryItem(op, x) => BinaryView(op, GripOf(x))
    case AssignItem(_, x) => AssignView(GripOf(x))
    case CondItem(_, x) => CondView(GripOf(x))
  }

  // ----- Inserting, as far as it can be seen -----

  function Push(g: Grip, p: int, access: bool): Grip {
    if g.Held? && Precedence(g.op, true) < p then Held(g.op, Push(g.inner, p, access)) else Leaf(access, false, false)
  }

  predicate Reaches(g: Grip, p: int) {
    if g.Held? then Precedence(g.op, true) < p && Reaches(g.inner, p) else g.access
  }

  predicate Admits(v: View, it: ItemView) {
    match it
    case StepView => Reaches(v.grip, Precedence(PlusPlus, true))
    case AssignView(_) => v.whole && v.grip.Leaf? && v.grip.access
    case _ => true
  }

  function Moved(v: View, it: ItemView): View {
    match it
    case AccessView => v.(grip := Push(v.grip, Precedence(Dot, false), true))
    case CallView => v.(grip := Push(v.grip, Precedence(LPar, false), false))
    case StepView => v.(grip := Push(v.grip, Precedence(PlusPlus, true), false))
    case BinaryView(_, g) => View(g, false, false)
    case AssignView(g) => View(g, true, false)
    case CondView(g) => View(g, true, false)
  }

  predicate IsPostfix(it: Item) { it.PropItem? || it.IndexItem? || it.CallItem? || it.StepItem? }

  // How tight the operators of a node bind.
  lemma NodeKind(e: Expr, g: bool)
    requires Obeys(e, g)
    ensures e.body.Binary? ==> 3 <= Precedence(e.body.op, false) <= 12
    ensures e.body.Assign? ==> Precedence(e.body.op, false) == 2
    ensures e.body.Prefix? ==> 14 <= Precedence(e.body.op, true)
  {
    match e.body
    case Binary(_, op, _) => BinaryKind(op);
    case Assign(_, op, _) => AssignKind(op);
    case Prefix(op, _) => PrefixKind(op);
    case _ =>
  }

  lemma TightIsNoInfix(e: Expr, lo: int, g: bool)
    requires Obeys(e, g) && Tight(e, lo) && lo > Precedence(Star, false)
    ensures !Infix(e)
  {
    NodeKind(e, g);
  }

  // What can be seen of the result of an insertion.
  predicate Seen(r: Outcome<Expr>, v: View, it: Item) {
    match r
    case Good(e) => Admits(v, ItemViewOf(it)) && ViewOf(e) == Moved(v, ItemViewOf(it))
    case Bad(err) => !Admits(v, ItemViewOf(it)) && err == if it.StepItem? then E0142 else E0140
  }

  lemma InfixView(e: Expr)
    requires Infix(e)
    ensures ViewOf(e) == View(ViewOf(Right(e)).grip, !e.body.Binary? && ViewOf(Right(e)).whole, false)
  {
  }

  lemma OperandView(x: Expr)
    requires !Infix(x)
    ensures ViewOf(x) == View(GripOf(x), true, true)
  {
  }

  lemma DescendsRight(e: Expr, it: Item, g: bool)
    requires Descends(e, ItemPrecedence(it))
    ensures HasRight(e) && !e.par
    ensures var r := Insert(Right(e), it, g);
            Insert(e, it, g) == if r.Good? then Good(WithRight(e, r.value)) else r
  {
  }

  // ----- Postfix operators -----

  lemma AttachPostfix(e: Expr, it: Item, g: bool)
    requires ItemObeys(it, g) && IsPostfix(it) && !Infix(e) && !Descends(e, ItemPrecedence(it))
    ensures Seen(Attach(e, it, g), ViewOf(e), it)
  {
    OperandView(e);
    var r := Attach(e, it, g);
    if r.Good? {
      OperandView(r.value);
      assert GripOf(r.value) == Leaf(it.PropItem? || it.IndexItem?, false, false);
    }
  }

  lemma HeldRight(e: Expr)
    requires !e.par && (e.body.Prefix? || e.body.AwaitOf?)
    ensures GripOf(e) == Held(if e.body.Prefix? then e.body.op else Await, GripOf(Right(e)))
  {
  }

  lemma HeldOnRight(e: Expr, r: Outcome<Expr>, it: Item)
    requires HasRight(e) && !e.par && !Infix(e) && !Infix(Right(e)) && Descends(e, ItemPrecedence(it))
    requires IsPostfix(it) && (it.StepItem? ==> IsStep(it.op)) && Seen(r, ViewOf(Right(e)), it)
    requires r.Good? ==> !Infix(r.value)
    ensures Seen(if r.Good? then Good(WithRight(e, r.value)) else r, ViewOf(e), it)
  {
    OperandView(e);
    OperandView(Right(e));
    HeldRight(e);
    if r.Good? {
      OperandView(r.value);
      OperandView(WithRight(e, r.value));
      HeldRight(WithRight(e, r.value));
    }
  }

  lemma {:induction false} PostfixGrip(e: Expr, it: Item, g: bool)
    requires Obeys(e, g) && ItemObeys(it, g) && IsPostfix(it) && !Infix(e)
    ensures Seen(Insert(e, it, g), ViewOf(e), it)
    ensures Insert(e, it, g).Good? ==> !Infix(Insert(e, it, g).value)
    decreases e.body
  {
    if !Descends(e, ItemPrecedence(it)) {
      AttachPostfix(e, it, g);
    } else {
      DescendsRight(e, it, g);
      TightIsNoInfix(Right(e), Floor(e.body), g);
      PostfixGrip(Right(e), it, g);
      HeldOnRight(e, Insert(Right(e), it, g), it);
    }
  }

  lemma PostfixDescends(e: Expr, it: Item, g: bool)
    requires Obeys(e, g) && ItemObeys(it, g) && IsPostfix(it) && Infix(e)
    ensures Descends(e, ItemPrecedence(it))
  {
    NodeKind(e, g);
  }

  lemma PostfixOnRight(e: Expr, r: Outcome<Expr>, it: Item)
    requires Infix(e) && IsPostfix(it) && Seen(r, ViewOf(Right(e)), it)
    ensures Seen(if r.Good? then Good(WithRight(e, r.value)) else r, ViewOf(e), it)
  {
    InfixView(e);
    if r.Good? { InfixView(WithRight(e, r.value)); }
  }

  lemma {:induction false} InsertPostfix(e: Expr, it: Item, g: bool)
    requires Obeys(e, g) && ItemObeys(it, g) && IsPostfix(it)
    ensures Seen(Insert(e, it, g), ViewOf(e), it)
    decreases e.body
  {
    if Infix(e) {
      PostfixDescends(e, it, g);
      InsertPostfix(Right(e), it, g);
      DescendsRight(e, it, g);
      PostfixOnRight(e, Insert(Right(e), it, g), it);
    } else {
      PostfixGrip(e, it, g);
    }
  }

  // ----- Infix operators -----

  lemma AttachBinary(e: Expr, it: Item, g: bool)
    requires it.BinaryItem? && ItemObeys(it, g)
    ensures Seen(Attach(e, it, g), ViewOf(e), it)
  {
    OperandView(it.right);
    var r := Attach(e, it, g).value;
    InfixView(r);
    if g && Joins(e, it.op, it.right) { InfixView(r.body.right); }
  }

  lemma AttachAssign(e: Expr, it: Item, g: bool)
    requires it.AssignItem? && ItemObeys(it, g) && (Infix(e) ==> e.body.Binary?)
    ensures Seen(Attach(e, it, g), ViewOf(e), it)
  {
    OperandView(it.right);
    if Infix(e) { InfixView(e); } else { OperandView(e); }
    var r := Attach(e, it, g);
    if r.Good? { InfixView(r.value); }
  }

  lemma AttachCond(e: Expr, it: Item, g: bool)
    requires it.CondItem? && ItemObeys(it, g)
    ensures Seen(Attach(e, it, g), ViewOf(e), it)
  {
    OperandView(it.alt);
    InfixView(Attach(e, it, g).value);
  }

  lemma AssignStops(e: Expr, p: int, g: bool)
    requires Obeys(e, g) && p == Precedence(Qn, false) && !Descends(e, p)
    ensures Infix(e) ==> e.body.Binary?
  {
    if e.body.Assign? { AssignKind(e.body.op); }
  }

  // A binary operator is not looked through for an assignment or a condition.
  lemma InfixDescends(e: Expr, it: Item, g: bool)
    requires Obeys(e, g) && ItemObeys(it, g) && !IsPostfix(it) && Descends(e, ItemPrecedence(it))
    ensures Infix(e) && (e.body.Binary? ==> it.BinaryItem?)
  {
    if it.BinaryItem? { BinaryKind(it.op); } else if it.AssignItem? { AssignKind(it.op); }
    NodeKind(e, g);
  }

  lemma SeenOnRight(e: Expr, r: Outcome<Expr>, it: Item)
    requires Infix(e) && (e.body.Binary? ==> it.BinaryItem?) && !IsPostfix(it) && Seen(r, ViewOf(Right(e)), it)
    ensures Seen(if r.Good? then Good(WithRight(e, r.value)) else r, ViewOf(e), it)
  {
    InfixView(e);
    if r.Good? { InfixView(WithRight(e, r.value)); }
  }

  lemma {:induction false} InsertInfix(e: Expr, it: Item, g: bool)
    requires Obeys(e, g) && ItemObeys(it, g) && !IsPostfix(it)
    ensures Seen(Insert(e, it, g), ViewOf(e), it)
    decreases e.body
  {
    if !Descends(e, ItemPrecedence(it)) {
      match it {
        case BinaryItem(_, _) => AttachBinary(e, it, g);
        case AssignItem(_, _) =>
          AssignKind(it.op);
          AssignStops(e, ItemPrecedence(it), g);
          AttachAssign(e, it, g);
        case CondItem(_, _) => AttachCond(e, it, g);
      }
    } else {
      InfixDescends(e, it, g);
      InsertInfix(Right(e), it, g);
      DescendsRight(e, it, g);
      SeenOnRight(e, Insert(Right(e), it, g), it);
    }
  }

  // What an insertion accepts, and what it leaves to see, depends only on what
  // could be seen before.
  lemma InsertSeen(e: Expr, it: Item, g: bool)
    requires Obeys(e, g) && ItemObeys(it, g)
    ensures Seen(Insert(e, it, g), ViewOf(e), it)
  {
    if IsPostfix(it) { InsertPostfix(e, it, g); } else { InsertInfix(e, it, g); }
  }

  // ----- The parser with and without regrouping -----

  // The same rest, and nothing the next operator could tell apart; or the same
  // error.
  predicate Alike(r: Result<Expr>, s: Result<Expr>) {
    match r
    case Ok(x, k) => s.Ok? && s.rest == k && ViewOf(s.value) == ViewOf(x)
    case Null => s.Null?
    case Fail(err) => s == Fail(err)
  }

  predicate AlikeItems(r: Result<Item>, s: Result<Item>) {
    match r
    case Ok(x, k) => s.Ok? && s.rest == k && ItemViewOf(s.value) == ItemViewOf(x)
    case Null => s.Null?
    case Fail(err) => s == Fail(err)
  }

  predicate AlikeLists<T>(r: Result<T>, s: Result<T>) {
    match r
    case Ok(_, k) => s.Ok? && s.rest == k
    case Null => s.Null?
    case Fail(err) => s == Fail(err)
  }

  lemma {:induction false} ExprAlike(ts: Tokens)
    ensures Alike(ParseExpr(ts, true), ParseExpr(ts, false))
    decreases Len(ts), 2
  {
    OperandAlike(ts);
    var r, s := ParseOperand(ts, true), ParseOperand(ts, false);
    if r.Ok? {
      ParseOperandObeys(ts, true);
      ParseOperandObeys(ts, false);
      WrapAlike(r.value, s.value, r.rest);
    }
  }

  lemma {:induction false} OperandAlike(ts: Tokens)
    ensures Alike(ParseOperand(ts, true), ParseOperand(ts, false))
    decreases Len(ts), 1
  {
    if ts.Next? && ts.tok.Sym? {
      var op, rest := ts.tok.op, ts.rest;
      if op.Await? || IsPrefix(op) {
        OperandAlike(rest);
        var r, s := ParseOperand(rest, true), ParseOperand(rest, false);
        if r.Ok? {
          ParseOperandObeys(rest, true);
          ParseOperandObeys(rest, false);
        }
        PrefixAlike(op, r, s);
      } else if op.LBrack? {
        ElementsAlike(rest);
      } else if op.LPar? {
        ExprAlike(rest);
        ParenAlike(ParseExpr(rest, true), ParseExpr(rest, false), rest);
      }
    }
  }

  lemma PrefixAlike(op: Op, r: Result<Expr>, s: Result<Expr>)
    requires Alike(r, s) && (op.Await? || IsPrefix(op)) && (r.Ok? ==> IsOperand(r.value) && IsOperand(s.value))
    ensures Alike(PrefixOf(op, r), PrefixOf(op, s))
  {
    if r.Ok? {
      PrefixKind(op);
      OperandView(r.value);
      OperandView(s.value);
      AccessSeen(r.value);
      AccessSeen(s.value);
      HeldAlike(op, r.value, s.value);
    }
  }

  lemma HeldAlike(op: Op, x: Expr, y: Expr)
    requires GripOf(x) == GripOf(y)
    ensures ViewOf(Expr(Prefix(op, x), false)) == ViewOf(Expr(Prefix(op, y), false))
    ensures ViewOf(Expr(AwaitOf(x), false)) == ViewOf(Expr(AwaitOf(y), false))
  {
    HeldView(Expr(Prefix(op, x), false));
    HeldView(Expr(Prefix(op, y), false));
    HeldView(Expr(AwaitOf(x), false));
    HeldView(Expr(AwaitOf(y), false));
  }

  lemma HeldView(e: Expr)
    requires !e.par && (e.body.Prefix? || e.body.AwaitOf?)
    ensures ViewOf(e) == View(Held(if e.body.Prefix? then e.body.op else Await, GripOf(Right(e))), true, true)
  {
    OperandView(e);
    HeldRight(e);
  }

  lemma AccessSeen(e: Expr)
    ensures var v := ViewOf(e);
            && (IsAccess(e) <==> v.alone && v.grip.Leaf? && v.grip.access)
            && (e.body.Name? <==> v.alone && v.grip.Leaf? && v.grip.name)
            && (IsStr(e) <==> v.alone && v.grip.Leaf? && v.grip.str)
  {
    if Infix(e) { InfixView(e); } else { OperandView(e); }
  }

  lemma ParenAlike(r: Result<Expr>, s: Result<Expr>, ts: Tokens)
    requires Alike(r, s)
    ensures Alike(ParenOf(r, ts), ParenOf(s, ts))
  {
    if r.Ok? {
      AccessSeen(r.value);
      AccessSeen(s.value);
      if ParenOf(r, ts).Ok? {
        OperandView(ParenOf(r, ts).value);
        OperandView(ParenOf(s, ts).value);
      }
    }
  }

  lemma {:induction false} ElementsAlike(ts: Tokens)
    ensures AlikeLists(ParseElements(ts, true), ParseElements(ts, false))
    decreases Len(ts), 3
  {
    if !Starts(ts, RBrack) {
      ExprAlike(ts);
      if ParseExpr(ts, true).Ok? { ElementsAlike(SkipComma(ParseExpr(ts, true).rest)); }
    }
  }

  lemma {:induction false} ArgsAlike(ts: Tokens)
    ensures AlikeLists(ParseArgs(ts, true), ParseArgs(ts, false))
    decreases Len(ts), 3
  {
    if !Starts(ts, RPar) {
      var from := SkipName(ts);
      ExprAlike(from);
      if ParseExpr(from, true).Ok? { ArgsAlike(SkipComma(ParseExpr(from, true).rest)); }
    }
  }

  lemma {:induction false} ItemAlike(ts: Tokens)
    ensures AlikeItems(ParseItem(ts, true), ParseItem(ts, false))
    decreases Len(ts), 0
  {
    if ts.Next? && ts.tok.Sym? {
      var op, rest := ts.tok.op, ts.rest;
      if op.LBrack? { ExprAlike(rest); }
      else if op.LPar? { ArgsAlike(rest); }
      else if IsBinary(op) || IsAssign(op) {
        OperandAlike(rest);
        OperandItems(op, rest);
      } else if op.Qn? { CondAlike(rest); }
    }
  }

  lemma OperandItems(op: Op, ts: Tokens)
    requires Alike(ParseOperand(ts, true), ParseOperand(ts, false))
    ensures AlikeItems(BinaryOf(op, ParseOperand(ts, true)), BinaryOf(op, ParseOperand(ts, false)))
    ensures AlikeItems(AssignOf(op, ParseOperand(ts, true)), AssignOf(op, ParseOperand(ts, false)))
  {
    if ParseOperand(ts, true).Ok? { OperandGrips(ts); }
  }

  lemma {:induction false} CondAlike(ts: Tokens)
    ensures AlikeItems(ParseCond(ts, true), ParseCond(ts, false))
    decreases Len(ts), 4
  {
    ExprAlike(ts);
    var r := ParseExpr(ts, true);
    if r.Ok? && Starts(r.rest, Colon) {
      OperandAlike(r.rest.rest);
      if ParseOperand(r.rest.rest, true).Ok? { OperandGrips(r.rest.rest); }
    }
  }

  lemma OperandGrips(ts: Tokens)
    requires Alike(ParseOperand(ts, true), ParseOperand(ts, false)) && ParseOperand(ts, true).Ok?
    ensures GripOf(ParseOperand(ts, true).value) == GripOf(ParseOperand(ts, false).value)
  {
    ParseOperandObeys(ts, true);
    ParseOperandObeys(ts, false);
    OperandView(ParseOperand(ts, true).value);
    OperandView(ParseOperand(ts, false).value);
  }

  lemma SeenAlike(r: Outcome<Expr>, s: Outcome<Expr>, v: View, it: Item, it': Item)
    requires Seen(r, v, it) && Seen(s, v, it') && ItemViewOf(it) == ItemViewOf(it')
    ensures if r.Good? then s.Good? && ViewOf(r.value) == ViewOf(s.value) else s == r
  {
    assert it.StepItem? <==> it'.StepItem?;
  }

  lemma {:induction false} WrapAlike(e: Expr, e': Expr, ts: Tokens)
    requires Obeys(e, true) && Obeys(e', false) && ViewOf(e) == ViewOf(e')
    ensures Alike(WrapAll(e, ts, true), WrapAll(e', ts, false))
    decreases Len(ts), 1
  {
    ItemAlike(ts);
    var r, s := ParseItem(ts, true), ParseItem(ts, false);
    if r.Ok? {
      ParseItemObeys(ts, true);
      ParseItemObeys(ts, false);
      InsertSeen(e, r.value, true);
      InsertSeen(e', s.value, false);
      var e1, e2 := Insert(e, r.value, true), Insert(e', s.value, false);
      SeenAlike(e1, e2, ViewOf(e), r.value, s.value);
      if e1.Good? {
        InsertKeepsObeys(e, r.value, true);
        InsertKeepsObeys(e', s.value, false);
        WrapAlike(e1.value, e2.value, r.rest);
      }
    }
  }

  // For every token list, regrouping changes nothing but the tree.
  lemma SameVerdict(ts: Tokens)
    ensures AlikeLists(ParseExpr(ts, true), ParseExpr(ts, false))
  {
    ExprAlike(ts);
  }
}
