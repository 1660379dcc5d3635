/** Scripts as trees, their tokens, and their big-step meaning. */
module Structured {
  import opened Tokens
  import opened Expression
  import opened ExpressionTree
  import opened Flow
  import opened Machine

  /** LET's target: an identifier, or a `$` variable whose value is the name. */
  datatype Target = Named(name: string) | Indirect(name: string)

  datatype Block = Nil | Cons(s: Stmt, rest: Block)
  datatype Stmt =
    | Blank(k: Layout, text: string)
    | SetVar(target: Target, e: Expr)
    | Perform(fn: nat, args: Arguments, tail: Tail)
    | Cond(c: Expr, then_: Block, els: Alternative)
    | Loop(c: Expr, body: Block)
    | Count(v: string, from: Expr, to: Expr, step: Option<Expr>, body: Block)
    | Again
    | Leave
    | Stray(sort: ValueType, text: string)
    | Guarded(s: Stmt, clause: Clause)
  datatype Alternative = NoElse | Otherwise(b: Block) | OtherIf(c: Expr, b: Block, els: Alternative)

  /** Behind a statement: NO_ERROR, or ERROR = and a label. */
  datatype Clause = Ignored | ToLabel(name: string)
  datatype Tail = NoTail | Chained(op: BinaryOp, rest: Expr)

  /** Line ends, line numbers and THEN may stand anywhere between statements. */
  datatype Layout = LineEnd | Line | ThenWord {
    function AsKind(): Kind {
      match this
      case LineEnd => EndOfLine
      case Line => LineNumber
      case ThenWord => Then
    }
  }

  function TargetToken(t: Target): Token {
    match t
    case Named(n) => Token(Value(Identifier), n)
    case Indirect(n) => Token(Value(Variable), n)
  }

  function CallExpr(fn: nat, args: Arguments, tail: Tail): Expr {
    match tail
    case NoTail => One(Call(fn, args))
    case Chained(op, rest) => Bin(Call(fn, args), op, rest)
  }

  function StepToks(step: Option<Expr>): seq<Token> {
    match step
    case None => []
    case Some(e) => [Sign(Step)] + ExprToks(e)
  }

  function BlockToks(b: Block): seq<Token> {
    match b
    case Nil => []
    case Cons(s, rest) => StmtToks(s) + BlockToks(rest)
  }

  function StmtToks(s: Stmt): seq<Token> {
    match s
    case Blank(k, text) => [Token(k.AsKind(), text)]
    case SetVar(t, e) => [Sign(Let)] + ([TargetToken(t)] + ([Sign(Assign)] + ExprToks(e)))
    case Perform(f, args, tail) => ExprToks(CallExpr(f, args, tail))
    case Cond(c, b, els) => [Sign(If)] + (ExprToks(c) + (BlockToks(b) + ElseToks(els)))
    case Loop(c, b) => [Sign(While)] + (ExprToks(c) + (BlockToks(b) + [Sign(EndWhile)]))
    case Count(v, e1, e2, e3, b) =>
      [Sign(For)] + ([Token(Value(Identifier), v)] + ([Sign(Assign)] + (ExprToks(e1) + ([Sign(To)] +
      (ExprToks(e2) + (StepToks(e3) + (BlockToks(b) + NextToks(v))))))))
    case Again => [Sign(Continue)]
    case Leave => [Sign(BreakLoop)]
    case Stray(v, text) => [Token(Value(v), text)]
    case Guarded(s1, clause) => StmtToks(s1) + ClauseToks(clause)
  }

  function ClauseToks(c: Clause): seq<Token> {
    match c
    case Ignored => [Sign(NoError)]
    case ToLabel(name) => [Sign(Error), Sign(Assign), Token(Value(Identifier), name)]
  }

  function NextToks(v: string): seq<Token> {
    [Sign(Next)] + [Token(Value(Identifier), v)]
  }

  function ElseToks(e: Alternative): seq<Token> {
    match e
    case NoElse => [Sign(EndIf)]
    case Otherwise(b) => [Sign(Else)] + (BlockToks(b) + [Sign(EndIf)])
    case OtherIf(c, b, els) => [Sign(ElseIf)] + (ExprToks(c) + (BlockToks(b) + ElseToks(els)))
  }

  // ---------------------------------------------------------------- well-formed scripts

  /** The innermost loop around a statement, and of a FOR whether BREAK_LOOP may leave it. */
  datatype Ctx = Outside | InWhile | InFor(left: bool)

  predicate MayBreak(ctx: Ctx) { ctx == InWhile || ctx == InFor(true) }

  /** The names of all FOR loops in a block. */
  function LoopNames(b: Block): set<string> {
    match b
    case Nil => {}
    case Cons(s, rest) => StmtLoopNames(s) + LoopNames(rest)
  }

  function StmtLoopNames(s: Stmt): set<string> {
    match s
    case Cond(_, b, els) => LoopNames(b) + ElseLoopNames(els)
    case Loop(_, b) => LoopNames(b)
    case Count(v, _, _, _, b) => {v} + LoopNames(b)
    case Guarded(s1, _) => StmtLoopNames(s1)
    case _ => {}
  }

  function ElseLoopNames(e: Alternative): set<string> {
    match e
    case NoElse => {}
    case Otherwise(b) => LoopNames(b)
    case OtherIf(_, b, els) => LoopNames(b) + ElseLoopNames(els)
  }

  /** Nested FOR loops have distinct names; CONTINUE stands in a loop; the innermost loop around a
      BREAK_LOOP is a WHILE, or the FOR that `ctx` says may be left; a clause for errors stands behind a
      statement without parts of its own. */
  predicate Proper(b: Block, ctx: Ctx) {
    match b
    case Nil => true
    case Cons(s, rest) => ProperStmt(s, ctx) && Proper(rest, ctx)
  }

  predicate ProperStmt(s: Stmt, ctx: Ctx) {
    match s
    case Cond(_, b, els) => Proper(b, ctx) && ProperElse(els, ctx)
    case Loop(_, b) => Proper(b, InWhile)
    case Count(v, _, _, _, b) => v !in LoopNames(b) && Proper(b, InFor(false))
    case Again => ctx != Outside
    case Leave => MayBreak(ctx)
    case Guarded(s1, _) => Guardable(s1)
    case _ => true
  }

  predicate Guardable(s: Stmt) { s.SetVar? || s.Perform? || s.Stray? }

  predicate ProperElse(e: Alternative, ctx: Ctx) {
    match e
    case NoElse => true
    case Otherwise(b) => Proper(b, ctx)
    case OtherIf(_, b, els) => Proper(b, ctx) && ProperElse(els, ctx)
  }

  // ---------------------------------------------------------------- meaning

  /** How a block ends: normally, at CONTINUE or at BREAK_LOOP; with an error no clause caught, or one
      that a clause sends to its label; with the exit of the process; or not within the given number of
      loop rounds. */
  datatype Signal = Normal | Continued | Broken
  datatype Result =
    | Done(env: Env, sig: Signal) | Abort(env: Env) | Caught(env: Env) | Quit(env: Env) | Timeout

  datatype Computed = Got(text: string, env: Env) | Failing(env: Env) | TooLong(env: Env)

  function Compute(l: Lang, e: Expr, env: Env): Computed {
    if |ExprQueue(e)| > MAX_Q then TooLong(env)
    else
      var v := Eval(l.ops, Resolved(l.ops, env, e), env);
      if v.value.None? then Failing(v.env) else Got(v.value.value.text, v.env)
  }

  function TargetName(l: Lang, t: Target, env: Env): string {
    match t
    case Named(n) => n
    case Indirect(n) => l.ops.resolve(n, env)
  }

  /** `k` bounds the rounds of every loop. */
  function Exec(l: Lang, k: nat, b: Block, env: Env): Result
    decreases k, b, 0
  {
    match b
    case Nil => Done(env, Normal)
    case Cons(s, rest) =>
      var r := ExecStmt(l, k, s, env);
      if r.Done? && r.sig == Normal then Exec(l, k, rest, r.env) else r
  }

  function ExecStmt(l: Lang, k: nat, s: Stmt, env: Env): Result
    decreases k, s, 1
  {
    match s
    case Blank(_, _) => Done(env, Normal)
    case SetVar(t, e) =>
      (match Compute(l, e, env)
       case TooLong(v) => Quit(v)
       case Failing(v) => Abort(v)
       case Got(text, v) => Done(v[TargetName(l, t, env) := text], Normal))
    case Perform(f, args, tail) =>
      (match Compute(l, CallExpr(f, args, tail), env)
       case TooLong(v) => Quit(v)
       case Failing(v) => Abort(v)
       case Got(_, v) => Done(v, Normal))
    case Cond(c, b, els) =>
      (match Compute(l, c, env)
       case TooLong(v) => Quit(v)
       case Failing(v) => Abort(v)
       case Got(text, v) => if l.truth(text) then Exec(l, k, b, v) else ExecElse(l, k, els, v))
    case Loop(c, b) => ExecLoop(l, k, c, b, env)
    case Count(v, e1, e2, e3, b) => LoopOver(ExecCount(l, k, v, e1, e2, e3, b, env))
    case Again => Done(env, Continued)
    case Leave => Done(env, Broken)
    case Stray(_, _) => Abort(env)
    case Guarded(s1, clause) => Handled(ExecStmt(l, k, s1, env), clause)
  }

  /** With NO_ERROR an error is none. */
  function Handled(r: Result, c: Clause): Result {
    match r
    case Abort(v) => if c.Ignored? then Done(v, Normal) else Caught(v)
    case _ => r
  }

  /** Behind a loop that BREAK_LOOP has left the script goes on. */
  function LoopOver(r: Result): Result {
    if r.Done? && r.sig == Broken then Done(r.env, Normal) else r
  }

  /** A failing condition behind ELSE_IF does not stop the script: its branch is taken. */
  function ExecElse(l: Lang, k: nat, e: Alternative, env: Env): Result
    decreases k, e, 0
  {
    match e
    case NoElse => Done(env, Normal)
    case Otherwise(b) => Exec(l, k, b, env)
    case OtherIf(c, b, els) =>
      match Compute(l, c, env)
      case TooLong(v) => Quit(v)
      case Failing(v) => Exec(l, k, b, v)
      case Got(text, v) => if l.truth(text) then Exec(l, k, b, v) else ExecElse(l, k, els, v)
  }

  function ExecLoop(l: Lang, k: nat, c: Expr, b: Block, env: Env): Result
    decreases k, b, 1
  {
    if k == 0 then Timeout
    else
      match Compute(l, c, env)
      case TooLong(v) => Quit(v)
      case Failing(v) => Abort(v)
      case Got(text, v) =>
        if !l.truth(text) then Done(v, Normal)
        else
          var r := Exec(l, k - 1, b, v);
          if !r.Done? then r
          else if r.sig == Broken then Done(r.env, Normal)
          else ExecLoop(l, k - 1, c, b, r.env)
  }

  function ExecCount(l: Lang, k: nat, v: string, e1: Expr, e2: Expr, e3: Option<Expr>, b: Block, env: Env): Result
    decreases k, b, 2
  {
    match Compute(l, e1, env)
    case TooLong(w) => Quit(w)
    case Failing(w) => Abort(w)
    case Got(t1, w1) =>
      match Compute(l, e2, w1[v := t1])
      case TooLong(w) => Quit(w)
      case Failing(w) => Abort(w)
      case Got(t2, w2) =>
        match (if e3.None? then Got("1", w2) else Compute(l, e3.value, w2))
        case TooLong(w) => Quit(w)
        case Failing(w) => Abort(w)
        case Got(t3, w3) =>
          if l.num(t1) > l.num(t2) then Done(w3, Normal)
          else ExecRounds(l, k, v, l.num(t2), l.num(t3), b, w3)
  }

  /** The rounds of a FOR loop: the limits are fixed on entry, the variable is read again at NEXT. */
  function ExecRounds(l: Lang, k: nat, v: string, y: int, z: int, b: Block, env: Env): Result
    decreases k, b, 1
  {
    if k == 0 then Timeout
    else
      var r := Exec(l, k - 1, b, env);
      if !r.Done? then r
      else if r.sig == Broken then r
      else if v !in r.env then Abort(r.env)
      else
        var x := Wrap32(l.num(r.env[v]) + z);
        if x > y then Done(r.env, Normal)
        else ExecRounds(l, k - 1, v, y, z, b, r.env[v := l.show(x)])
  }
}
