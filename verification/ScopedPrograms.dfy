/** Programs with nested functions, and what they mean: each declaration that is executed makes a new variable,
    and a function value holds all variables that are in scope where the function is written. */
module ScopedPrograms {

  datatype Expr =
    | Const(n: int)
    | Name(name: string)
    | Function(param: string, body: seq<Stmt>)

  /** The loop goes on while the condition is not zero. */
  datatype Stmt =
    | Local(name: string, e: Expr)
    | Assign(name: string, e: Expr)
    | Do(body: seq<Stmt>)
    | While(cond: Expr, body: seq<Stmt>)
    | Call(f: Expr, arg: Expr)
    | Output(e: Expr)

  datatype RValue = RNum(n: int) | RFun(param: string, body: seq<Stmt>, env: Env)

  /** The variables in scope, the innermost last. */
  type Env = seq<(string, nat)>

  /** The values of all variables that were ever made. */
  type Store = seq<RValue>

  /** The last declaration of the name; -1 when there is none. */
  function Find(env: Env, n: string): (i: int)
    ensures -1 <= i < |env|
    ensures i >= 0 ==> env[i].0 == n
    decreases |env|
  {
    if env == [] then -1
    else if env[|env| - 1].0 == n then |env| - 1
    else Find(env[..|env| - 1], n)
  }

  datatype Outcome = Fine | Failed | Exhausted

  datatype Result = Result(o: Outcome, store: Store, out: seq<int>, env: Env)

  datatype Maybe = Nothing | Just(v: RValue)

  function Eval(store: Store, env: Env, e: Expr): Maybe {
    match e
    case Const(n) => Just(RNum(n))
    case Function(p, body) => Just(RFun(p, body, env))
    case Name(n) =>
      var i := Find(env, n);
      if i >= 0 && env[i].1 < |store| then Just(store[env[i].1]) else Nothing
  }

  /** One statement. `fuel` bounds the calls inside each other and the rounds of loops. */
  function Step(fuel: nat, store: Store, out: seq<int>, env: Env, stmt: Stmt): Result
    decreases fuel, stmt
  {
    match stmt
    case Local(n, e) =>
      (match Eval(store, env, e)
       case Nothing => Result(Failed, store, out, env)
       case Just(v) => Result(Fine, store + [v], out, env + [(n, |store|)]))
    case Assign(n, e) =>
      (match Eval(store, env, e)
       case Nothing => Result(Failed, store, out, env)
       case Just(v) =>
         var i := Find(env, n);
         if i >= 0 && env[i].1 < |store| then Result(Fine, store[env[i].1 := v], out, env)
         else Result(Failed, store, out, env))
    case Do(body) => Run(fuel, store, out, env, body).(env := env)
    case While(cond, body) =>
      (match Eval(store, env, cond)
       case Nothing => Result(Failed, store, out, env)
       case Just(v) =>
         if v == RNum(0) then Result(Fine, store, out, env)
         else
           var r := Run(fuel, store, out, env, body);
           if r.o != Fine then r.(env := env)
           else if fuel == 0 then Result(Exhausted, r.store, r.out, env)
           else Step(fuel - 1, r.store, r.out, env, stmt))
    case Call(f, arg) =>
      (match Eval(store, env, f)
       case Nothing => Result(Failed, store, out, env)
       case Just(vf) =>
         match Eval(store, env, arg)
         case Nothing => Result(Failed, store, out, env)
         case Just(v) =>
           if !vf.RFun? then Result(Failed, store, out, env)
           else if fuel == 0 then Result(Exhausted, store, out, env)
           else Run(fuel - 1, store + [v], out, vf.env + [(vf.param, |store|)], vf.body).(env := env))
    case Output(e) =>
      (match Eval(store, env, e)
       case Nothing => Result(Failed, store, out, env)
       case Just(v) => if v.RNum? then Result(Fine, store, out + [v.n], env) else Result(Failed, store, out, env))
  }

  function Run(fuel: nat, store: Store, out: seq<int>, env: Env, body: seq<Stmt>): Result
    decreases fuel, body
  {
    if body == [] then Result(Fine, store, out, env)
    else
      var r := Step(fuel, store, out, env, body[0]);
      if r.o != Fine then r else Run(fuel, r.store, r.out, r.env, body[1..])
  }
}
