/** What it is to mention an outer variable, said by paths into the program: a
    function captures a variable if and only if a path leads from it to the name,
    through closures and functions within, and no declaration on the way hides it. */
module CaptureOccurs {
  import opened Prelude
  import opened CaptureSpec

  // ----- Parts of a program and paths to them -----

  datatype Node = OfExpr(expr: Expr) | OfStmt(stmt: Stmt)

  // A part of a node, with the names of the variables (parameters and closures
  // included) and of the functions declared within the node that it can see.
  datatype Inner = Inner(node: Node, vars: set<string>, fns: set<string>)

  function Inners(n: Node): seq<Inner> {
    match n
    case OfExpr(Name(_)) => []
    case OfExpr(Closure(ps, b)) => OfParams(ps, {}) + OfBlock(b, NamesOf(ps) + {"$"})
    case OfExpr(Parts(es)) => OfExprs(es)
    case OfStmt(Eval(e)) => [Inner(OfExpr(e), {}, {})]
    case OfStmt(Var(_, init)) => OfInit(init, {})
    case OfStmt(Fn(_, ps, b)) => OfParams(ps, {}) + OfBlock(b, NamesOf(ps))
    case OfStmt(Scoped(b)) => OfBlock(b, {})
    case OfStmt(Bare(b)) => OfBlock(b, {})
  }

  function OfExprs(es: Exprs): seq<Inner> {
    match es
    case NoExprs => []
    case MoreExprs(e, others) => [Inner(OfExpr(e), {}, {})] + OfExprs(others)
  }

  function OfInit(init: Option<Expr>, vars: set<string>): seq<Inner> {
    if init.Some? then [Inner(OfExpr(init.value), vars, {})] else []
  }

  // The defaults of parameters: each sees the parameters in front of it.
  function OfParams(ps: Params, vars: set<string>): seq<Inner> {
    match ps
    case NoParams => []
    case MoreParams(x, init, others) => OfInit(init, vars) + OfParams(others, vars + {x})
  }

  function NamesOf(ps: Params): set<string> {
    match ps
    case NoParams => {}
    case MoreParams(x, _, others) => {x} + NamesOf(others)
  }

  // The statements of a block: each sees all the functions of the block, and what
  // the statements in front of it leave in scope.
  function OfBlock(b: Block, vars: set<string>): seq<Inner> { OfStmts(b, vars, Functions(b)) }

  function OfStmts(b: Block, vars: set<string>, fns: set<string>): seq<Inner> {
    match b
    case Done => []
    case Then(s, others) => [Inner(OfStmt(s), vars, fns)] + OfStmts(others, vars + VarsLeft(s), fns + FnsLeft(s))
  }

  function Functions(b: Block): set<string> {
    match b
    case Done => {}
    case Then(s, others) => (if s.Fn? then {s.name} else {}) + Functions(others)
  }

  // The variables and functions a statement leaves in scope: those of a block
  // without a scope of its own stay.
  function VarsLeft(s: Stmt): set<string> {
    match s
    case Var(x, _) => {x}
    case Bare(b) => VarsOf(b)
    case _ => {}
  }

  function VarsOf(b: Block): set<string> {
    match b
    case Done => {}
    case Then(s, others) => VarsLeft(s) + VarsOf(others)
  }

  function FnsLeft(s: Stmt): set<string> {
    match s
    case Bare(b) => Functions(b) + FnsOf(b)
    case _ => {}
  }

  function FnsOf(b: Block): set<string> {
    match b
    case Done => {}
    case Then(s, others) => FnsLeft(s) + FnsOf(others)
  }

  datatype Path = Here | Down(k: nat, further: Path)

  // The path leads to the name `x` and nothing on it hides an `x` of outside: no
  // variable does, and with `fns` no function either.
  predicate LeadsTo(n: Node, path: Path, x: string, fns: bool)
    decreases path
  {
    match path
    case Here => n == OfExpr(Name(x))
    case Down(k, further) =>
      k < |Inners(n)| && Open(Inners(n)[k], x, fns) && LeadsTo(Inners(n)[k].node, further, x, fns)
  }

  predicate Open(i: Inner, x: string, fns: bool) { x !in i.vars && (fns ==> x !in i.fns) }

  ghost predicate Mentions(n: Node, x: string, fns: bool) { exists path :: LeadsTo(n, path, x, fns) }

  predicate Innermost(env: Env, x: string, p: nat) {
    p < |env| && env[p] == x && forall q :: p < q < |env| ==> env[q] != x
  }

  // ----- Part by part -----

  ghost predicate Among(parts: seq<Inner>, x: string, fns: bool) {
    exists k :: 0 <= k < |parts| && Open(parts[k], x, fns) && Mentions(parts[k].node, x, fns)
  }

  lemma MentionsPart(n: Node, x: string, fns: bool)
    ensures Mentions(n, x, fns) <==> n == OfExpr(Name(x)) || Among(Inners(n), x, fns)
  {
    var parts := Inners(n);
    if path :| LeadsTo(n, path, x, fns) {
      if path.Down? {
        assert LeadsTo(parts[path.k].node, path.further, x, fns);
        assert Mentions(parts[path.k].node, x, fns);
      }
    }
    if n == OfExpr(Name(x)) { assert LeadsTo(n, Here, x, fns); }
    if k: nat :| k < |parts| && Open(parts[k], x, fns) && Mentions(parts[k].node, x, fns) {
      var further :| LeadsTo(parts[k].node, further, x, fns);
      assert LeadsTo(n, Down(k, further), x, fns);
    }
  }

  lemma AmongEither(l: seq<Inner>, r: seq<Inner>, x: string, fns: bool)
    ensures Among(l + r, x, fns) <==> Among(l, x, fns) || Among(r, x, fns)
  {
    var all := l + r;
    if k :| 0 <= k < |all| && Open(all[k], x, fns) && Mentions(all[k].node, x, fns) {
      if k >= |l| { assert all[k] == r[k - |l|]; }
    }
    if k :| 0 <= k < |l| && Open(l[k], x, fns) && Mentions(l[k].node, x, fns) {
      assert all[k] == l[k];
    }
    if k :| 0 <= k < |r| && Open(r[k], x, fns) && Mentions(r[k].node, x, fns) {
      assert all[|l| + k] == r[k];
    }
  }

  lemma AmongOne(i: Inner, x: string, fns: bool)
    ensures Among([i], x, fns) <==> Open(i, x, fns) && Mentions(i.node, x, fns)
  {
    assert [i][0] == i;
  }

  // ----- Scopes -----

  lemma {:induction false} InnermostLast(env: Env, x: string, p: nat)
    requires p < |env| && env[p] == x
    ensures x in env && (Innermost(env, x, p) <==> Last(env, x) == p)
  {
  }

  lemma InnermostAdd(env: Env, y: string, x: string, p: nat)
    requires p < |env| && env[p] == x
    ensures Innermost(env + [y], x, p) <==> Innermost(env, x, p) && y != x
  {
    var all := env + [y];
    assert all[|env|] == y;
    if Innermost(all, x, p) {
      forall q | p < q < |env| ensures env[q] != x { assert all[q] == env[q]; }
    }
  }

  // A function hides no name that is in scope.
  lemma {:induction false} InnermostHoisted(b: Block, env: Env, x: string, p: nat)
    requires p < |env| && env[p] == x
    ensures Innermost(Hoisted(b, env), x, p) <==> Innermost(env, x, p)
    decreases b
  {
    match b
    case Done =>
    case Then(s, others) =>
      if s.Fn? && s.name !in env {
        InnermostAdd(env, s.name, x, p);
        InnermostHoisted(others, env + [s.name], x, p);
      } else {
        InnermostHoisted(others, env, x, p);
      }
  }

  lemma {:induction false} InnermostParams(ps: Params, env: Env, x: string, p: nat)
    requires p < |env| && env[p] == x
    ensures Innermost(WithParams(ps, env), x, p) <==> Innermost(env, x, p) && x !in NamesOf(ps)
    decreases ps
  {
    match ps
    case NoParams =>
    case MoreParams(y, _, others) =>
      InnermostAdd(env, y, x, p);
      InnermostParams(others, env + [y], x, p);
  }

  lemma {:induction false} InnermostAfter(s: Stmt, env: Env, x: string, p: nat)
    requires p < |env| && env[p] == x
    ensures Innermost(After(s, env), x, p) <==> Innermost(env, x, p) && x !in VarsLeft(s)
    decreases s, 0
  {
    match s
    case Var(y, _) => InnermostAdd(env, y, x, p);
    case Bare(b) =>
      InnermostHoisted(b, env, x, p);
      InnermostAfterAll(b, Hoisted(b, env), x, p);
    case _ =>
  }

  lemma {:induction false} InnermostAfterAll(b: Block, env: Env, x: string, p: nat)
    requires p < |env| && env[p] == x
    ensures Innermost(AfterAll(b, env), x, p) <==> Innermost(env, x, p) && x !in VarsOf(b)
    decreases b, 0
  {
    match b
    case Done =>
    case Then(s, others) =>
      InnermostAfter(s, env, x, p);
      InnermostAfterAll(others, After(s, env), x, p);
  }

  // ----- Uses are mentions -----

  // A variable in scope is used if and only if its name stands for it and is
  // mentioned.
  lemma {:induction false} UsesAreMentions(e: Expr, env: Env, p: nat)
    requires p < |env|
    ensures p in Uses(e, env) <==> Innermost(env, env[p], p) && Mentions(OfExpr(e), env[p], false)
    decreases e, 0
  {
    var x := env[p];
    MentionsPart(OfExpr(e), x, false);
    match e
    case Name(y) =>
      InnermostLast(env, x, p);
    case Closure(ps, b) =>
      var inner := WithParams(ps, env);
      ParamsAreMentions(ps, env, {}, Innermost(env, x, p), x, p);
      InnermostParams(ps, env, x, p);
      InnermostAdd(inner, "$", x, p);
      BlockIsMentions(b, inner + ["$"], NamesOf(ps) + {"$"}, Innermost(env, x, p), x, p);
      AmongEither(OfParams(ps, {}), OfBlock(b, NamesOf(ps) + {"$"}), x, false);
    case Parts(es) => ExprsAreMentions(es, env, x, p);
  }

  lemma {:induction false} ExprsAreMentions(es: Exprs, env: Env, x: string, p: nat)
    requires p < |env| && env[p] == x
    ensures p in UsesAll(es, env) <==> Innermost(env, x, p) && Among(OfExprs(es), x, false)
    decreases es, 0
  {
    match es
    case NoExprs =>
    case MoreExprs(e, others) =>
      UsesAreMentions(e, env, p);
      ExprsAreMentions(others, env, x, p);
      AmongOne(Inner(OfExpr(e), {}, {}), x, false);
      AmongEither([Inner(OfExpr(e), {}, {})], OfExprs(others), x, false);
  }

  lemma {:induction false} ParamsAreMentions(ps: Params, env: Env, vars: set<string>, inn: bool, x: string, p: nat)
    requires p < |env| && env[p] == x && (Innermost(env, x, p) <==> inn && x !in vars)
    ensures p in UsesOfParams(ps, env) <==> inn && Among(OfParams(ps, vars), x, false)
    decreases ps, 0
  {
    match ps
    case NoParams =>
    case MoreParams(y, init, others) =>
      InnermostAdd(env, y, x, p);
      ParamsAreMentions(others, env + [y], vars + {y}, inn, x, p);
      AmongEither(OfInit(init, vars), OfParams(others, vars + {y}), x, false);
      if init.Some? {
        UsesAreMentions(init.value, env, p);
        AmongOne(Inner(OfExpr(init.value), vars, {}), x, false);
      }
  }

  lemma {:induction false} BlockIsMentions(b: Block, env: Env, vars: set<string>, inn: bool, x: string, p: nat)
    requires p < |env| && env[p] == x && (Innermost(env, x, p) <==> inn && x !in vars)
    ensures p in UsesOfBlock(b, env) <==> inn && Among(OfBlock(b, vars), x, false)
    decreases b, 1
  {
    InnermostHoisted(b, env, x, p);
    StmtsAreMentions(b, Hoisted(b, env), vars, Functions(b), inn, x, p);
  }

  lemma {:induction false} StmtsAreMentions(b: Block, env: Env, vars: set<string>, fns: set<string>, inn: bool,
                                            x: string, p: nat)
    requires p < |env| && env[p] == x && (Innermost(env, x, p) <==> inn && x !in vars)
    ensures p in UsesOfStmts(b, env) <==> inn && Among(OfStmts(b, vars, fns), x, false)
    decreases b, 0
  {
    match b
    case Done =>
    case Then(s, others) =>
      StmtIsMentions(s, env, p);
      InnermostAfter(s, env, x, p);
      StmtsAreMentions(others, After(s, env), vars + VarsLeft(s), fns + FnsLeft(s), inn, x, p);
      AmongOne(Inner(OfStmt(s), vars, fns), x, false);
      AmongEither([Inner(OfStmt(s), vars, fns)], OfStmts(others, vars + VarsLeft(s), fns + FnsLeft(s)), x, false);
  }

  lemma {:induction false} StmtIsMentions(s: Stmt, env: Env, p: nat)
    requires p < |env|
    ensures p in UsesOfStmt(s, env) <==> Innermost(env, env[p], p) && Mentions(OfStmt(s), env[p], false)
    decreases s, 0
  {
    var x := env[p];
    var inn := Innermost(env, x, p);
    MentionsPart(OfStmt(s), x, false);
    match s
    case Eval(e) =>
      UsesAreMentions(e, env, p);
      AmongOne(Inner(OfExpr(e), {}, {}), x, false);
    case Var(_, init) =>
      if init.Some? {
        UsesAreMentions(init.value, env, p);
        AmongOne(Inner(OfExpr(init.value), {}, {}), x, false);
      }
    case Fn(_, ps, b) =>
      ParamsAreMentions(ps, env, {}, inn, x, p);
      InnermostParams(ps, env, x, p);
      BlockIsMentions(b, WithParams(ps, env), NamesOf(ps), inn, x, p);
      AmongEither(OfParams(ps, {}), OfBlock(b, NamesOf(ps)), x, false);
    case Scoped(b) => BlockIsMentions(b, env, {}, inn, x, p);
    case Bare(b) => BlockIsMentions(b, env, {}, inn, x, p);
  }

  // ----- Names that are not in scope -----

  function SetOf(env: Env): set<string> { set x | x in env }

  // Whatever is mentioned is one of `names`.
  ghost predicate Closed(n: Node, names: set<string>) { forall x :: Mentions(n, x, true) ==> x in names }

  ghost predicate Covered(parts: seq<Inner>, names: set<string>) { forall x :: Among(parts, x, true) ==> x in names }

  lemma ClosedPart(n: Node, names: set<string>)
    ensures Closed(n, names) <==>
      (n.OfExpr? && n.expr.Name? ==> n.expr.name in names) && Covered(Inners(n), names)
  {
    forall x ensures Mentions(n, x, true) <==> n == OfExpr(Name(x)) || Among(Inners(n), x, true) {
      MentionsPart(n, x, true);
    }
    if n.OfExpr? && n.expr.Name? { assert Mentions(n, n.expr.name, true); }
  }

  lemma CoveredEither(l: seq<Inner>, r: seq<Inner>, names: set<string>)
    ensures Covered(l + r, names) <==> Covered(l, names) && Covered(r, names)
  {
    forall x ensures Among(l + r, x, true) <==> Among(l, x, true) || Among(r, x, true) {
      AmongEither(l, r, x, true);
    }
  }

  lemma CoveredOne(i: Inner, names: set<string>)
    ensures Covered([i], names) <==> Closed(i.node, names + i.vars + i.fns)
  {
    forall x ensures Among([i], x, true) <==> Open(i, x, true) && Mentions(i.node, x, true) {
      AmongOne(i, x, true);
    }
  }

  lemma SetOfAdd(env: Env, x: string)
    ensures SetOf(env + [x]) == SetOf(env) + {x}
  {
  }

  lemma {:induction false} SetOfHoisted(b: Block, env: Env)
    ensures SetOf(Hoisted(b, env)) == SetOf(env) + Functions(b)
    decreases b
  {
    match b
    case Done =>
    case Then(s, others) =>
      if s.Fn? && s.name !in env {
        SetOfAdd(env, s.name);
        SetOfHoisted(others, env + [s.name]);
      } else {
        SetOfHoisted(others, env);
      }
  }

  lemma {:induction false} SetOfParams(ps: Params, env: Env)
    ensures SetOf(WithParams(ps, env)) == SetOf(env) + NamesOf(ps)
    decreases ps
  {
    match ps
    case NoParams =>
    case MoreParams(x, _, others) =>
      SetOfAdd(env, x);
      SetOfParams(others, env + [x]);
  }

  lemma {:induction false} SetOfAfter(s: Stmt, env: Env)
    ensures SetOf(After(s, env)) == SetOf(env) + VarsLeft(s) + FnsLeft(s)
    decreases s, 0
  {
    match s
    case Var(x, _) => SetOfAdd(env, x);
    case Bare(b) =>
      SetOfHoisted(b, env);
      SetOfAfterAll(b, Hoisted(b, env));
    case _ =>
  }

  lemma {:induction false} SetOfAfterAll(b: Block, env: Env)
    ensures SetOf(AfterAll(b, env)) == SetOf(env) + VarsOf(b) + FnsOf(b)
    decreases b, 0
  {
    match b
    case Done =>
    case Then(s, others) =>
      SetOfAfter(s, env);
      SetOfAfterAll(others, After(s, env));
  }

  // An expression is accepted if and only if everything it mentions is in scope.
  lemma {:induction false} ResolvesMentions(e: Expr, env: Env)
    ensures Resolves(e, env) <==> Closed(OfExpr(e), SetOf(env))
    decreases e, 0
  {
    var names := SetOf(env);
    ClosedPart(OfExpr(e), names);
    match e
    case Name(x) =>
    case Closure(ps, b) =>
      var inner := WithParams(ps, env);
      ParamsResolveMentions(ps, env, {}, names);
      SetOfParams(ps, env);
      SetOfAdd(inner, "$");
      BlockResolvesMentions(b, inner + ["$"], NamesOf(ps) + {"$"}, names);
      CoveredEither(OfParams(ps, {}), OfBlock(b, NamesOf(ps) + {"$"}), names);
    case Parts(es) => AllResolveMentions(es, env);
  }

  lemma {:induction false} AllResolveMentions(es: Exprs, env: Env)
    ensures AllResolve(es, env) <==> Covered(OfExprs(es), SetOf(env))
    decreases es, 0
  {
    match es
    case NoExprs =>
    case MoreExprs(e, others) =>
      ResolvesMentions(e, env);
      AllResolveMentions(others, env);
      CoveredOne(Inner(OfExpr(e), {}, {}), SetOf(env));
      CoveredEither([Inner(OfExpr(e), {}, {})], OfExprs(others), SetOf(env));
      assert SetOf(env) + {} + {} == SetOf(env);
  }

  lemma {:induction false} InitResolves(init: Option<Expr>, env: Env, vars: set<string>, names: set<string>)
    requires SetOf(env) == names + vars
    ensures (init.Some? ==> Resolves(init.value, env)) <==> Covered(OfInit(init, vars), names)
    decreases init, 1
  {
    if init.Some? {
      ResolvesMentions(init.value, env);
      CoveredOne(Inner(OfExpr(init.value), vars, {}), names);
      assert names + vars + {} == names + vars;
    }
  }

  lemma {:induction false} ParamsResolveMentions(ps: Params, env: Env, vars: set<string>, names: set<string>)
    requires SetOf(env) == names + vars
    ensures ParamsResolve(ps, env) <==> Covered(OfParams(ps, vars), names)
    decreases ps, 0
  {
    match ps
    case NoParams =>
    case MoreParams(x, init, others) =>
      SetOfAdd(env, x);
      assert names + (vars + {x}) == names + vars + {x};
      InitResolves(init, env, vars, names);
      ParamsResolveMentions(others, env + [x], vars + {x}, names);
      CoveredEither(OfInit(init, vars), OfParams(others, vars + {x}), names);
  }

  lemma {:induction false} BlockResolvesMentions(b: Block, env: Env, vars: set<string>, names: set<string>)
    requires SetOf(env) == names + vars
    ensures BlockResolves(b, env) <==> Covered(OfBlock(b, vars), names)
    decreases b, 1
  {
    SetOfHoisted(b, env);
    StmtsResolveMentions(b, Hoisted(b, env), vars, Functions(b), names);
  }

  lemma {:induction false} StmtsResolveMentions(b: Block, env: Env, vars: set<string>, fns: set<string>,
                                                names: set<string>)
    requires SetOf(env) == names + vars + fns
    ensures StmtsResolve(b, env) <==> Covered(OfStmts(b, vars, fns), names)
    decreases b, 0
  {
    match b
    case Done =>
    case Then(s, others) =>
      var vars', fns' := vars + VarsLeft(s), fns + FnsLeft(s);
      StmtResolvesMentions(s, env);
      SetOfAfter(s, env);
      assert names + vars + fns + VarsLeft(s) + FnsLeft(s) == names + vars' + fns';
      StmtsResolveMentions(others, After(s, env), vars', fns', names);
      CoveredOne(Inner(OfStmt(s), vars, fns), names);
      CoveredEither([Inner(OfStmt(s), vars, fns)], OfStmts(others, vars', fns'), names);
  }

  lemma {:induction false} StmtResolvesMentions(s: Stmt, env: Env)
    ensures StmtResolves(s, env) <==> Closed(OfStmt(s), SetOf(env))
    decreases s, 0
  {
    var names := SetOf(env);
    ClosedPart(OfStmt(s), names);
    assert names + {} == names && names + {} + {} == names;
    match s
    case Eval(e) =>
      ResolvesMentions(e, env);
      CoveredOne(Inner(OfExpr(e), {}, {}), names);
    case Var(_, init) => InitResolves(init, env, {}, names);
    case Fn(_, ps, b) =>
      ParamsResolveMentions(ps, env, {}, names);
      SetOfParams(ps, env);
      BlockResolvesMentions(b, WithParams(ps, env), NamesOf(ps), names);
      CoveredEither(OfParams(ps, {}), OfBlock(b, NamesOf(ps)), names);
    case Scoped(b) => BlockResolvesMentions(b, env, {}, names);
    case Bare(b) => BlockResolvesMentions(b, env, {}, names);
  }

  // ----- Captures are mentions -----

  lemma ClosureCaptures(ps: Params, b: Block, env: Env, p: nat)
    requires p < |env|
    ensures p in Captures(ps, b, env, ["$"]) <==>
      Innermost(env, env[p], p) && Mentions(OfExpr(Closure(ps, b)), env[p], false)
  {
    UsesAreMentions(Closure(ps, b), env, p);
  }

  lemma FunctionCaptures(f: string, ps: Params, b: Block, env: Env, p: nat)
    requires p < |env|
    ensures p in Captures(ps, b, env, []) <==>
      Innermost(env, env[p], p) && Mentions(OfStmt(Fn(f, ps, b)), env[p], false)
  {
    StmtIsMentions(Fn(f, ps, b), env, p);
    assert WithParams(ps, env) + [] == WithParams(ps, env);
  }
}
