/** Which outer variables a function refers to, by lexical scoping alone. */
module CaptureSpec {
  import opened Prelude

  // The parts of the language that declare or mention names.  `Parts` stands
  // for every other expression.
  datatype Expr = Name(name: string) | Closure(params: Params, body: Block) | Parts(parts: Exprs)

  datatype Exprs = NoExprs | MoreExprs(first: Expr, others: Exprs)

  datatype Params = NoParams | MoreParams(name: string, init: Option<Expr>, others: Params)

  // `Scoped` is the body of an `if`, a loop or a handler; `Bare` is that of a
  // `try`, whose variables stay in scope behind it.
  datatype Stmt =
    | Eval(expr: Expr)
    | Var(name: string, init: Option<Expr>)
    | Fn(name: string, params: Params, body: Block)
    | Scoped(body: Block)
    | Bare(body: Block)

  datatype Block = Done | Then(first: Stmt, others: Block)

  // The names in scope, the innermost last; a position stands for a variable.
  type Env = seq<string>

  // The variable a name stands for.
  function Last(env: Env, x: string): (p: nat)
    requires x in env
    ensures p < |env| && env[p] == x && forall q :: p < q < |env| ==> env[q] != x
  {
    if env[|env| - 1] == x then |env| - 1
    else
      assert env == env[..|env| - 1] + [env[|env| - 1]];
      Last(env[..|env| - 1], x)
  }

  // Functions are declared before the statements of their block, unless their
  // name is already taken.
  function Hoisted(b: Block, env: Env): (r: Env)
    ensures env <= r
  {
    match b
    case Done => env
    case Then(Fn(f, _, _), others) => Hoisted(others, if f in env then env else env + [f])
    case Then(_, others) => Hoisted(others, env)
  }

  // Every name that is looked up is in scope.
  predicate Resolves(e: Expr, env: Env)
    decreases e, 0
  {
    match e
    case Name(x) => x in env
    case Closure(ps, b) => ParamsResolve(ps, env) && BlockResolves(b, WithParams(ps, env) + ["$"])
    case Parts(es) => AllResolve(es, env)
  }

  predicate AllResolve(es: Exprs, env: Env)
    decreases es, 0
  {
    match es
    case NoExprs => true
    case MoreExprs(e, others) => Resolves(e, env) && AllResolve(others, env)
  }

  function WithParams(ps: Params, env: Env): (r: Env)
    ensures env <= r
  {
    match ps
    case NoParams => env
    case MoreParams(x, _, others) => WithParams(others, env + [x])
  }

  predicate ParamsResolve(ps: Params, env: Env)
    decreases ps, 0
  {
    match ps
    case NoParams => true
    case MoreParams(x, init, others) => (init.Some? ==> Resolves(init.value, env)) && ParamsResolve(others, env + [x])
  }

  predicate StmtResolves(s: Stmt, env: Env)
    decreases s, 0
  {
    match s
    case Eval(e) => Resolves(e, env)
    case Var(_, init) => init.Some? ==> Resolves(init.value, env)
    case Fn(_, ps, b) => ParamsResolve(ps, env) && BlockResolves(b, WithParams(ps, env))
    case Scoped(b) => BlockResolves(b, env)
    case Bare(b) => BlockResolves(b, env)
  }

  // The names in scope behind a statement.
  function After(s: Stmt, env: Env): (r: Env)
    ensures env <= r
    decreases s, 0
  {
    match s
    case Eval(_) => env
    case Var(x, _) => env + [x]
    case Fn(_, _, _) => env
    case Scoped(_) => env
    case Bare(b) => AfterAll(b, Hoisted(b, env))
  }

  function AfterAll(b: Block, env: Env): (r: Env)
    ensures env <= r
    decreases b, 0
  {
    match b
    case Done => env
    case Then(s, others) => AfterAll(others, After(s, env))
  }

  predicate BlockResolves(b: Block, env: Env)
    decreases b, 1
  {
    StmtsResolve(b, Hoisted(b, env))
  }

  predicate StmtsResolve(b: Block, env: Env)
    decreases b, 0
  {
    match b
    case Done => true
    case Then(s, others) => StmtResolves(s, env) && StmtsResolve(others, After(s, env))
  }

  // ----- The variables of `env` that are mentioned -----

  function Outer(uses: set<nat>, n: nat): set<nat> { set p | p in uses && p < n }

  function Uses(e: Expr, env: Env): set<nat>
    decreases e, 0
  {
    match e
    case Name(x) => if x in env then {Last(env, x)} else {}
    case Closure(ps, b) => Outer(UsesOfParams(ps, env) + UsesOfBlock(b, WithParams(ps, env) + ["$"]), |env|)
    case Parts(es) => UsesAll(es, env)
  }

  function UsesAll(es: Exprs, env: Env): set<nat>
    decreases es, 0
  {
    match es
    case NoExprs => {}
    case MoreExprs(e, others) => Uses(e, env) + UsesAll(others, env)
  }

  function UsesOfParams(ps: Params, env: Env): set<nat>
    decreases ps, 0
  {
    match ps
    case NoParams => {}
    case MoreParams(x, init, others) =>
      (if init.Some? then Uses(init.value, env) else {}) + UsesOfParams(others, env + [x])
  }

  function UsesOfStmt(s: Stmt, env: Env): set<nat>
    decreases s, 0
  {
    match s
    case Eval(e) => Uses(e, env)
    case Var(_, init) => if init.Some? then Uses(init.value, env) else {}
    case Fn(_, ps, b) => Outer(UsesOfParams(ps, env) + UsesOfBlock(b, WithParams(ps, env)), |env|)
    case Scoped(b) => Outer(UsesOfBlock(b, env), |env|)
    case Bare(b) => UsesOfBlock(b, env)
  }

  function UsesOfBlock(b: Block, env: Env): set<nat>
    decreases b, 1
  {
    UsesOfStmts(b, Hoisted(b, env))
  }

  function UsesOfStmts(b: Block, env: Env): set<nat>
    decreases b, 0
  {
    match b
    case Done => {}
    case Then(s, others) => UsesOfStmt(s, env) + UsesOfStmts(others, After(s, env))
  }

  // What a function captures: what its parameters' defaults and its body
  // mention of what is in scope where it stands.  A closure has a variable for
  // itself.
  function Captures(ps: Params, b: Block, env: Env, self: Env): set<nat> {
    Outer(UsesOfParams(ps, env) + UsesOfBlock(b, WithParams(ps, env) + self), |env|)
  }
}
