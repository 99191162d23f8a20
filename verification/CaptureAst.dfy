/** The walk over a program: every function's captured variables are exactly
    those it mentions. */
module CaptureAst {
  import opened Prelude
  import opened CaptureSpec
  import opened Capture
  import opened CaptureOccurs

  // The captured variables `stack` are those at the positions `uses` that can
  // be captured at all.
  ghost predicate Exactly(stack: seq<Variable>, items: seq<Variable>, uses: set<nat>) {
    forall v :: v in stack <==> exists p :: p in uses && p < |items| && items[p] == v && Eligible(v)
  }

  // The same without positions: the captured variables are those that are neither
  // built in nor ignored and that the function `n`, at any depth, mentions where
  // nothing hides them.
  ghost predicate CapturesMentioned(stack: seq<Variable>, items: seq<Variable>, n: Node) {
    forall v :: v in stack <==>
      && !v.builtin && !v.ctxIgnored
      && Mentions(n, v.name, false)
      && exists p :: 0 <= p < |items| && items[p] == v && Innermost(Names(items), v.name, p)
  }

  lemma ExactlyMentioned(stack: seq<Variable>, items: seq<Variable>, uses: set<nat>, n: Node)
    requires Exactly(stack, items, uses)
    requires forall p: nat :: p < |items| ==>
      (p in uses <==> Innermost(Names(items), Names(items)[p], p) && Mentions(n, Names(items)[p], false))
    ensures CapturesMentioned(stack, items, n)
  {
    forall v
      ensures v in stack <==>
        && !v.builtin && !v.ctxIgnored
        && Mentions(n, v.name, false)
        && exists p :: 0 <= p < |items| && items[p] == v && Innermost(Names(items), v.name, p)
    {
      if v in stack {
        var p :| p in uses && p < |items| && items[p] == v && Eligible(v);
        assert Names(items)[p] == v.name;
      }
      if p :| 0 <= p < |items| && items[p] == v && Innermost(Names(items), v.name, p) {
        assert Names(items)[p] == v.name;
      }
    }
  }

  lemma ClosureMentioned(stack: seq<Variable>, items: seq<Variable>, ps: Params, b: Block)
    requires Exactly(stack, items, Captures(ps, b, Names(items), ["$"]))
    ensures CapturesMentioned(stack, items, OfExpr(Closure(ps, b)))
  {
    forall p: nat | p < |items|
      ensures p in Captures(ps, b, Names(items), ["$"]) <==>
        Innermost(Names(items), Names(items)[p], p) && Mentions(OfExpr(Closure(ps, b)), Names(items)[p], false)
    {
      ClosureCaptures(ps, b, Names(items), p);
    }
    ExactlyMentioned(stack, items, Captures(ps, b, Names(items), ["$"]), OfExpr(Closure(ps, b)));
  }

  lemma FunctionMentioned(stack: seq<Variable>, items: seq<Variable>, f: string, ps: Params, b: Block)
    requires Exactly(stack, items, Captures(ps, b, Names(items), []))
    ensures CapturesMentioned(stack, items, OfStmt(Fn(f, ps, b)))
  {
    forall p: nat | p < |items|
      ensures p in Captures(ps, b, Names(items), []) <==>
        Innermost(Names(items), Names(items)[p], p) && Mentions(OfStmt(Fn(f, ps, b)), Names(items)[p], false)
    {
      FunctionCaptures(f, ps, b, Names(items), p);
    }
    ExactlyMentioned(stack, items, Captures(ps, b, Names(items), []), OfStmt(Fn(f, ps, b)));
  }

  lemma NamesAppend(items: seq<Variable>, v: Variable)
    ensures Names(items + [v]) == Names(items) + [v.name]
  {
  }

  lemma NameHit(items: seq<Variable>, x: string, v: Variable)
    requires x in Names(items) && v == items[Last(Names(items), x)] && Different(items)
    ensures forall w :: w in items ==> (Hit(items, {Last(Names(items), x)}, w) <==> w.code == v.code)
  {
    var p := Last(Names(items), x);
    assert p < |items| && items[p] == v;
  }

  // Marking what an inner function captures is marking what it mentions.
  lemma SnapshotHits(stack: seq<Variable>, items: seq<Variable>, uses: set<nat>, entries: seq<Entry>)
    requires Exactly(stack, items, uses) && Stacked(entries, items) && Different(items)
    ensures forall i :: 0 <= i < |entries| ==>
      (Hit(items, uses, entries[i].v) <==> exists w :: w in stack && w.code == entries[i].v.code)
  {
    forall i | 0 <= i < |entries|
      ensures Hit(items, uses, entries[i].v) <==> exists w :: w in stack && w.code == entries[i].v.code
    {
      var v := entries[i].v;
      var q :| 0 <= q < |items| && items[q] == v;
      if Hit(items, uses, v) {
        var p :| p in uses && p < |items| && items[p].code == v.code;
        assert p == q && v in stack;
      }
      if w :| w in stack && w.code == v.code {
        var p :| p in uses && p < |items| && items[p] == w && Eligible(w);
        assert items[p].code == v.code;
      }
    }
  }

  // A closure's variable for itself.
  function Self(closure: bool): Env { if closure then ["$"] else [] }

  // All variables in scope that can be captured, none of them marked.
  predicate AllOf(entries: seq<Entry>, items: seq<Variable>) {
    && Stacked(entries, items) && (forall i :: 0 <= i < |entries| ==> !entries[i].marked)
    && forall v :: v in items && Eligible(v) ==> exists i :: 0 <= i < |entries| && entries[i].v == v
  }

  lemma SnapshotIsExact(stack: seq<Variable>, entries: seq<Entry>, entries': seq<Entry>, items: seq<Variable>,
                        uses: set<nat>)
    requires AllOf(entries, items) && Marked(entries, entries', items, uses) && Different(items)
    requires Snapped(stack, entries')
    ensures Exactly(stack, items, uses)
  {
    forall v ensures v in stack <==> exists p :: p in uses && p < |items| && items[p] == v && Eligible(v) {
      if v in stack {
        var i :| 0 <= i < |entries'| && entries'[i].marked && entries'[i].v == v;
        assert entries[i].v == v && Hit(items, uses, v);
        var p :| p in uses && p < |items| && items[p].code == v.code;
        var q :| 0 <= q < |items| && items[q] == v;
        assert p == q;
      }
      if p :| p in uses && p < |items| && items[p] == v && Eligible(v) {
        assert v in items;
        var i :| 0 <= i < |entries| && entries[i].v == v;
        assert Hit(items, uses, v);
        assert entries'[i].marked && entries'[i].v == v;
      }
    }
  }

  lemma BodyIsExact(stack: seq<Variable>, entries: seq<Entry>, entries1: seq<Entry>, entries2: seq<Entry>,
                    items: seq<Variable>, items1: seq<Variable>, uses1: set<nat>, uses2: set<nat>)
    requires AllOf(entries, items) && items <= items1 && Different(items1)
    requires Marked(entries, entries1, items, uses1) && Marked(entries1, entries2, items1, uses2)
    requires Snapped(stack, entries2)
    ensures Exactly(stack, items, Outer(uses1 + uses2, |items|))
  {
    MarkedTwice(entries, entries1, entries2, items, items1, uses1, uses2);
    MarkedOuter(entries, entries2, items, uses1 + uses2);
    SnapshotIsExact(stack, entries, entries2, items, Outer(uses1 + uses2, |items|));
  }

  class Ast {
    const varMap: VarMap
    // The number of the next type code name.
    var types: nat

    constructor (varMap: VarMap)
      requires varMap.Valid() && forall k: nat :: FnCode(k) !in CodesOf(varMap.items)
      ensures this.varMap == varMap && Valid()
    {
      this.varMap := varMap;
      types := 0;
    }

    ghost predicate Valid()
      reads this, varMap
    {
      varMap.Valid() && forall k: nat :: FnCode(k) in CodesOf(varMap.items) ==> k < types
    }

    ghost predicate Ready(vs: VarStack)
      reads this, varMap, vs
    {
      Valid() && Stacked(vs.items, varMap.items)
    }

    function Scope(): Env
      reads varMap
    {
      Names(varMap.items)
    }

    // A variable of the current frame.
    method Declare(name: string)
      requires Valid()
      modifies varMap`items
      ensures Valid() && old(varMap.items) <= varMap.items && |varMap.items| == |old(varMap.items)| + 1
      ensures Scope() == old(Scope()) + [name]
      ensures varMap.items[|varMap.items| - 1].frame == varMap.frame
    {
      var code := varMap.FreshName(name);
      ghost var was := varMap.items;
      varMap.Add(name, code);
      CodesAppend(was, varMap.items[|was|]);
      NamesAppend(was, varMap.items[|was|]);
    }

    // The variable of a function, named after its type.
    method DeclareFn(name: string)
      requires Valid()
      modifies this`types, varMap`items
      ensures Valid() && old(varMap.items) <= varMap.items && |varMap.items| == |old(varMap.items)| + 1
      ensures Scope() == old(Scope()) + [name]
      ensures varMap.items[|varMap.items| - 1].frame == varMap.frame
    {
      var code := FnCode(types);
      ghost var was := varMap.items;
      types := types + 1;
      varMap.Add(name, code);
      CodesAppend(was, varMap.items[|was|]);
      NamesAppend(was, varMap.items[|was|]);
    }

    // `_forwardNode`: the functions of a block.
    method Forward(b: Block)
      requires Valid()
      modifies this`types, varMap`items
      ensures Valid() && old(varMap.items) <= varMap.items && Scope() == Hoisted(b, old(Scope()))
      ensures forall i :: |old(varMap.items)| <= i < |varMap.items| ==> varMap.items[i].frame == varMap.frame
      decreases b
    {
      match b
      case Done =>
      case Then(s, others) =>
        if s.Fn? {
          var taken := varMap.Has(s.name);
          if !taken { DeclareFn(s.name); }
        }
        Forward(others);
    }

    // What an analysis leaves: the variables that were there, further ones of
    // the current frame, and `uses` marked.
    twostate predicate Analysed(vs: VarStack, uses: set<nat>)
      reads this, varMap, vs
    {
      && Ready(vs) && old(varMap.items) <= varMap.items && varMap.frame == old(varMap.frame)
      && (forall i :: |old(varMap.items)| <= i < |varMap.items| ==> varMap.items[i].frame == varMap.frame)
      && Marked(old(vs.items), vs.items, old(varMap.items), uses)
    }

    // The expressions.
    method NodeExpr(e: Expr, vs: VarStack) returns (ok: bool)
      requires Ready(vs)
      modifies this`types, varMap, vs
      ensures ok <==> Resolves(e, old(Scope()))
      ensures ok ==> Analysed(vs, Uses(e, old(Scope()))) && varMap.items == old(varMap.items)
      decreases e, 1
    {
      match e
      case Name(x) =>
        var v := varMap.Get(x);
        if v.None? { return false; }
        vs.Mark(v.value);
        NameHit(varMap.items, x, v.value);
        ok := true;
      case Closure(ps, b) =>
        var stack;
        ok, stack := NodeClosure(ps, b, vs, e);
      case Parts(es) => ok := NodeExprs(es, vs);
    }

    method NodeExprs(es: Exprs, vs: VarStack) returns (ok: bool)
      requires Ready(vs)
      modifies this`types, varMap, vs
      ensures ok <==> AllResolve(es, old(Scope()))
      ensures ok ==> Analysed(vs, UsesAll(es, old(Scope()))) && varMap.items == old(varMap.items)
      decreases es, 0
    {
      match es
      case NoExprs =>
        MarkedNone(vs.items, varMap.items);
        ok := true;
      case MoreExprs(e, others) =>
        ghost var before := vs.items;
        ok := NodeExpr(e, vs);
        if ok {
          ghost var between := vs.items;
          ok := NodeExprs(others, vs);
          if ok {
            MarkedTwice(before, between, vs.items, varMap.items, varMap.items, Uses(e, Scope()),
                        UsesAll(others, Scope()));
          }
        }
    }

    // An inner function's captured variables, seen by the outer one.
    method MarkSnapshot(vs: VarStack, stack: seq<Variable>, ghost uses: set<nat>)
      requires Ready(vs) && Exactly(stack, varMap.items, uses)
      modifies vs
      ensures Ready(vs) && Marked(old(vs.items), vs.items, varMap.items, uses)
    {
      vs.MarkAll(stack);
      SnapshotHits(stack, varMap.items, uses, old(vs.items));
    }

    // The parameters of a function, each in scope of the next one's default.
    method ParamList(ps: Params, vs: VarStack) returns (ok: bool)
      requires Ready(vs)
      modifies this`types, varMap, vs
      ensures ok <==> ParamsResolve(ps, old(Scope()))
      ensures ok ==> Analysed(vs, UsesOfParams(ps, old(Scope()))) && Scope() == WithParams(ps, old(Scope()))
      decreases ps, 0
    {
      match ps
      case NoParams =>
        MarkedNone(vs.items, varMap.items);
        ok := true;
      case MoreParams(x, init, others) =>
        ghost var before, items, env := vs.items, varMap.items, Scope();
        ok := true;
        if init.Some? { ok := NodeExpr(init.value, vs); } else { MarkedNone(vs.items, varMap.items); }
        if ok {
          Declare(x);
          ghost var between, items1 := vs.items, varMap.items;
          StackedGrows(before, between, items, items1);
          ok := ParamList(others, vs);
          if ok {
            MarkedTwice(before, between, vs.items, items, items1, if init.Some? then Uses(init.value, env) else {},
                        UsesOfParams(others, env + [x]));
          }
        }
    }

    // A function or closure: its own stack is taken where it stands, and what
    // it captures is marked in the outer one.
    method NodeClosure(ps: Params, b: Block, vs: VarStack, ghost e: Expr) returns (ok: bool, stack: seq<Variable>)
      requires Ready(vs) && e == Closure(ps, b)
      modifies this`types, varMap, vs
      ensures ok <==> Resolves(e, old(Scope()))
      ensures ok ==> Analysed(vs, Uses(e, old(Scope()))) && varMap.items == old(varMap.items)
      ensures ok ==> Exactly(stack, varMap.items, Captures(ps, b, Scope(), ["$"]))
      ensures ok ==> CapturesMentioned(stack, varMap.items, OfExpr(e))
      decreases e, 0
    {
      ghost var items := varMap.items;
      stack := [];
      var inner := varMap.Stack();
      ghost var entries := inner.items;
      varMap.Save();
      ok := ParamList(ps, inner);
      if ok {
        ok, stack := FnBody(b, inner, true, items, entries, UsesOfParams(ps, Names(items)));
        if ok {
          MarkSnapshot(vs, stack, Captures(ps, b, Names(items), ["$"]));
          ClosureMentioned(stack, items, ps, b);
        }
      }
    }

    // The body of a function, and what it captures.  `items` are the variables
    // where it stands, `entries` those of them it may capture, and `uses` those
    // its parameters mention.
    method FnBody(b: Block, inner: VarStack, closure: bool, ghost items: seq<Variable>, ghost entries: seq<Entry>,
                  ghost uses: set<nat>)
      returns (ok: bool, stack: seq<Variable>)
      requires Ready(inner) && varMap.frame > 0 && items <= varMap.items && Framed(items, varMap.frame - 1)
      requires forall i :: |items| <= i < |varMap.items| ==> varMap.items[i].frame == varMap.frame
      requires AllOf(entries, items) && Marked(entries, inner.items, items, uses)
      modifies this`types, varMap, inner
      ensures ok <==> BlockResolves(b, old(Scope()) + Self(closure))
      ensures ok ==>
        && Valid() && varMap.items == items && varMap.frame == old(varMap.frame) - 1
        && Exactly(stack, items, Outer(uses + UsesOfBlock(b, old(Scope()) + Self(closure)), |items|))
      decreases b, 3
    {
      ghost var env := Scope() + Self(closure);
      stack := [];
      if closure { DeclareFn("$"); }
      assert Scope() == env;
      ghost var between, items1 := inner.items, varMap.items;
      StackedGrows(inner.items, inner.items, old(varMap.items), items1);
      ok := NodeBlock(b, inner);
      if ok {
        varMap.Restore(|items|);
        stack := inner.Snapshot();
        BodyIsExact(stack, entries, between, inner.items, items, items1, uses, UsesOfBlock(b, env));
      }
    }

    // A block: its functions, then its statements.
    method NodeBlock(b: Block, vs: VarStack) returns (ok: bool)
      requires Ready(vs)
      modifies this`types, varMap, vs
      ensures ok <==> BlockResolves(b, old(Scope()))
      ensures ok ==>
        Analysed(vs, UsesOfBlock(b, old(Scope()))) && Scope() == AfterAll(b, Hoisted(b, old(Scope())))
      decreases b, 2
    {
      ghost var before, items := vs.items, varMap.items;
      Forward(b);
      ghost var items1 := varMap.items;
      StackedGrows(before, before, items, items1);
      ok := Nodes(b, vs);
      if ok {
        MarkedNone(before, items);
        MarkedTwice(before, before, vs.items, items, items1, {}, UsesOfStmts(b, Names(items1)));
        assert {} + UsesOfStmts(b, Names(items1)) == UsesOfStmts(b, Names(items1));
      }
    }

    method Nodes(b: Block, vs: VarStack) returns (ok: bool)
      requires Ready(vs)
      modifies this`types, varMap, vs
      ensures ok <==> StmtsResolve(b, old(Scope()))
      ensures ok ==> Analysed(vs, UsesOfStmts(b, old(Scope()))) && Scope() == AfterAll(b, old(Scope()))
      decreases b, 1
    {
      match b
      case Done =>
        MarkedNone(vs.items, varMap.items);
        ok := true;
      case Then(s, others) =>
        ghost var before, items, env := vs.items, varMap.items, Scope();
        ok := Node(s, vs);
        if ok {
          ghost var between, items1 := vs.items, varMap.items;
          ok := Nodes(others, vs);
          if ok {
            MarkedTwice(before, between, vs.items, items, items1, UsesOfStmt(s, env),
                        UsesOfStmts(others, After(s, env)));
          }
        }
    }

    // The statements.
    method Node(s: Stmt, vs: VarStack) returns (ok: bool)
      requires Ready(vs)
      modifies this`types, varMap, vs
      ensures ok <==> StmtResolves(s, old(Scope()))
      ensures ok ==> Analysed(vs, UsesOfStmt(s, old(Scope()))) && Scope() == After(s, old(Scope()))
      decreases s, 1
    {
      match s
      case Eval(e) => ok := NodeExpr(e, vs);
      case Var(x, init) =>
        ghost var before, items := vs.items, varMap.items;
        ok := true;
        if init.Some? { ok := NodeExpr(init.value, vs); } else { MarkedNone(vs.items, varMap.items); }
        if ok {
          Declare(x);
          StackedGrows(before, vs.items, items, varMap.items);
        }
      case Fn(_, ps, b) =>
        var stack;
        ok, stack := NodeFn(ps, b, vs, s);
      case Scoped(b) => ok := NodeScoped(b, vs, s);
      case Bare(b) => ok := NodeBlock(b, vs);
    }

    // Returned with what it captures.
    method NodeFn(ps: Params, b: Block, vs: VarStack, ghost s: Stmt) returns (ok: bool, stack: seq<Variable>)
      requires Ready(vs) && s.Fn? && s.params == ps && s.body == b
      modifies this`types, varMap, vs
      ensures ok <==> StmtResolves(s, old(Scope()))
      ensures ok ==> Analysed(vs, UsesOfStmt(s, old(Scope()))) && varMap.items == old(varMap.items)
      ensures ok ==> Exactly(stack, varMap.items, Captures(ps, b, Scope(), []))
      ensures ok ==> CapturesMentioned(stack, varMap.items, OfStmt(s))
      decreases s, 0
    {
      ghost var items := varMap.items;
      stack := [];
      ghost var env := WithParams(ps, Names(items));
      assert env + [] == env;
      var inner := varMap.Stack();
      ghost var entries := inner.items;
      varMap.Save();
      ok := ParamList(ps, inner);
      if ok {
        ok, stack := FnBody(b, inner, false, items, entries, UsesOfParams(ps, Names(items)));
        if ok {
          MarkSnapshot(vs, stack, Captures(ps, b, Names(items), []));
          FunctionMentioned(stack, items, s.name, ps, b);
        }
      }
    }

    method NodeScoped(b: Block, vs: VarStack, ghost s: Stmt) returns (ok: bool)
      requires Ready(vs) && s == Scoped(b)
      modifies this`types, varMap, vs
      ensures ok <==> StmtResolves(s, old(Scope()))
      ensures ok ==> Analysed(vs, UsesOfStmt(s, old(Scope()))) && varMap.items == old(varMap.items)
      decreases s, 0
    {
      ghost var before, items := vs.items, varMap.items;
      varMap.Save();
      ok := NodeBlock(b, vs);
      if ok {
        varMap.Restore(|items|);
        MarkedOuter(before, vs.items, items, UsesOfBlock(b, Names(items)));
        StackedGrows(before, vs.items, items, items);
      }
    }
  }
}
