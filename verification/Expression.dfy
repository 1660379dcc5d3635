/** The expression queue and solver of source/expression.c.

    `expr`, `term` and `func` push tokens in reading order; `solve` and `solve_function` then
    take them off the same stack from the right. The arithmetic and string operators and the
    bodies of the built-in functions are parameters (`Ops`). */
module Expression {
  import opened Tokens
  import opened Programs

  /** MAX_Q of source/expression.c:36. */
  const MAX_Q: nat := 500

  datatype ResultKind = NumberResult | StringResult | IdentifierResult {
    function AsValue(): ValueType {
      match this
      case NumberResult => Number
      case StringResult => Str
      case IdentifierResult => Identifier
    }
  }

  /** What a built-in function does: it fails, or yields a token; it may also write variables. */
  datatype CallResult =
    | Failed(env: Env)
    | Returned(kind: ResultKind, text: string, env: Env)

  /** `binary(op, right, left)` and `unary(op, operand)` may fail; `call(f, commas, a0, a1, a2, env)`
      is the built-in `f` after its argument loop, `a0` being the LAST argument written. */
  datatype Ops = Ops(
    resolve: (string, Env) -> string,
    binary: (BinaryOp, string, string) -> Option<string>,
    unary: (UnaryOp, string) -> Option<string>,
    call: (nat, nat, string, string, string, Env) -> CallResult)

  /** Fatal is the exit of the process on a full queue (source/expression.c:2100-2103). Hang is the
      argument loop on an exhausted queue, which never ends (source/expression.c:636-682). */
  datatype Status = Ok | Err | Fatal | Hang

  function Last(q: seq<Token>): Token
    requires q != []
  {
    q[|q| - 1]
  }

  function Front(q: seq<Token>): seq<Token>
    requires q != []
  {
    q[..|q| - 1]
  }

  // ---------------------------------------------------------------- parsing onto the queue

  datatype Parse = Parse(status: Status, idx: nat, q: seq<Token>)

  function Pushed(i: nat, q: seq<Token>, t: Token): Parse
  {
    if |q| >= MAX_Q then Parse(Fatal, i, q) else Parse(Ok, i, q + [t])
  }

  /** source/expression.c:101-141 */
  function ParseExpr(ops: Ops, p: seq<Token>, env: Env, i: nat, q: seq<Token>): (r: Parse)
    requires i <= |p|
    ensures i <= r.idx <= |p| && (r.status.Ok? ==> i < r.idx)
    decreases |p| - i, 1
  {
    var r := ParseTerm(ops, p, env, i, q);
    if !r.status.Ok? then r else ParseRest(ops, p, env, r.idx, r.q)
  }

  /** The operator loop of `expr`: source/expression.c:119-136. */
  function ParseRest(ops: Ops, p: seq<Token>, env: Env, i: nat, q: seq<Token>): (r: Parse)
    requires i <= |p|
    ensures i <= r.idx <= |p|
    decreases |p| - i, 0
  {
    var t := TokenAt(ops.resolve, p, env, i);
    if !IsOperator(t.kind) then Parse(Ok, i, q)
    else
      var a := Pushed(i + 1, q, t);
      if !a.status.Ok? then a else
      var r := ParseTerm(ops, p, env, i + 1, a.q);
      if !r.status.Ok? then r else ParseRest(ops, p, env, r.idx, r.q)
  }

  /** source/expression.c:146-262. After a unary prefix the inner result is dropped. */
  function ParseTerm(ops: Ops, p: seq<Token>, env: Env, i: nat, q: seq<Token>): (r: Parse)
    requires i <= |p|
    ensures i <= r.idx <= |p| && (r.status.Ok? ==> i < r.idx)
    decreases |p| - i, 0
  {
    var t := TokenAt(ops.resolve, p, env, i);
    var j := Past(p, i);
    if t.kind.Function? then
      var a := Pushed(j, q, t);
      if !a.status.Ok? then a else ParseCall(ops, p, env, j, a.q)
    else if t.kind.Value? then
      Pushed(j, q, t)
    else if PrefixOf(t.kind).Some? then
      var a := Pushed(j, q, Token(Unary(PrefixOf(t.kind).value), t.text));
      if !a.status.Ok? then a else
      var r := ParseTerm(ops, p, env, j, a.q);
      if r.status.Err? then r.(status := Ok) else r
    else if t.kind == OpenParen then
      var a := Pushed(j, q, t);
      if !a.status.Ok? then a else
      var r := ParseExpr(ops, p, env, j, a.q);
      if !r.status.Ok? then r else
      var c := TokenAt(ops.resolve, p, env, r.idx);
      if c.kind == CloseParen then Pushed(r.idx + 1, r.q, c)
      else Parse(Err, Past(p, r.idx), r.q)
    else Parse(Err, j, q)
  }

  /** The signs that may stand before an operand. */
  function PrefixOf(k: Kind): Option<UnaryOp> {
    if k == Binary(Minus) then Some(UnaryMinus)
    else if k == Binary(Plus) then Some(UnaryPlus)
    else if k == Unary(OnesComplement) then Some(OnesComplement)
    else None
  }

  /** source/expression.c:267-337 */
  function ParseCall(ops: Ops, p: seq<Token>, env: Env, i: nat, q: seq<Token>): (r: Parse)
    requires i <= |p|
    ensures i <= r.idx <= |p|
    decreases |p| - i, 0
  {
    var t := TokenAt(ops.resolve, p, env, i);
    if t.kind != OpenParen then Parse(Err, Past(p, i), q)
    else
      var c := TokenAt(ops.resolve, p, env, i + 1);
      if c.kind == CloseParen then Pushed(i + 2, q, Token(FunctionEnd, c.text))
      else ParseArgs(ops, p, env, i + 1, q)
  }

  function ParseArgs(ops: Ops, p: seq<Token>, env: Env, i: nat, q: seq<Token>): (r: Parse)
    requires i <= |p|
    ensures i <= r.idx <= |p|
    decreases |p| - i, 2
  {
    var r := ParseExpr(ops, p, env, i, q);
    if !r.status.Ok? then r else ParseMore(ops, p, env, r.idx, r.q)
  }

  /** The argument loop of `func`: source/expression.c:299-328. */
  function ParseMore(ops: Ops, p: seq<Token>, env: Env, i: nat, q: seq<Token>): (r: Parse)
    requires i <= |p|
    ensures i <= r.idx <= |p|
    decreases |p| - i, 0
  {
    var c := TokenAt(ops.resolve, p, env, i);
    if c.kind == CloseParen then Pushed(i + 1, q, Token(FunctionEnd, c.text))
    else if c.kind == Comma then
      var a := Pushed(i + 1, q, c);
      if !a.status.Ok? then a else ParseArgs(ops, p, env, i + 1, a.q)
    else Parse(Err, Past(p, i), q)
  }

  // ---------------------------------------------------------------- solving the queue

  datatype Solved = Solved(status: Status, q: seq<Token>, token: string, env: Env)
  datatype Fetched = Fetched(status: Status, arg: Token, q: seq<Token>, token: string, env: Env)
  datatype Args = Args(status: Status, fn: nat, commas: nat, a0: string, a1: string, a2: string,
                       q: seq<Token>, env: Env)

  function Broken(s: Status, env: Env): Solved { Solved(s, [], "", env) }

  /** One `dq_token` after an inner solve: an empty queue yields the null token. */
  function Dequeued(s: Solved): (r: Fetched)
    ensures |r.q| <= |s.q|
  {
    if !s.status.Ok? then Fetched(s.status, NULL_TOKEN, [], "", s.env)
    else if s.q == [] then Fetched(Ok, NULL_TOKEN, [], s.token, s.env)
    else Fetched(Ok, Last(s.q), Front(s.q), s.token, s.env)
  }

  /** The loop of `solve`: source/expression.c:358-596. */
  function Solve(ops: Ops, q: seq<Token>, token: string, env: Env): (r: Solved)
    ensures |r.q| <= |q|
    decreases |q|, 1
  {
    if q == [] then Solved(Ok, q, token, env)
    else
      var o := Operand(ops, Last(q), Front(q), token, env);
      if !o.status.Ok? then Broken(o.status, o.env)
      else Reduce(ops, o.arg, o.q, o.token, o.env)
  }

  /** source/expression.c:363-385 */
  function Operand(ops: Ops, t: Token, q: seq<Token>, token: string, env: Env): (r: Fetched)
    ensures |r.q| <= |q|
    decreases |q|, 7
  {
    if t.kind == CloseParen then Dequeued(Solve(ops, q, token, env))
    else if t.kind == FunctionEnd then Dequeued(SolveFunction(ops, q, token, env))
    else Fetched(Ok, t, q, token, env)
  }

  /** The second operand makes the same two tests in the other order: source/expression.c:456-476. */
  function SecondOperand(ops: Ops, t: Token, q: seq<Token>, token: string, env: Env): (r: Fetched)
    ensures |r.q| <= |q|
    decreases |q|, 8
  {
    var o := Operand(ops, t, q, token, env);
    if t.kind == FunctionEnd && o.status.Ok? && o.arg.kind == CloseParen
    then Operand(ops, o.arg, o.q, o.token, o.env) else o
  }

  /** One pass of `solve` once its first operand is at hand: source/expression.c:387-590. */
  function Reduce(ops: Ops, arg1: Token, q: seq<Token>, token: string, env: Env): (r: Solved)
    ensures |r.q| <= |q| + 1
    decreases |q|, 9
  {
    if q == [] then Solve(ops, [], arg1.text, env)
    else
      var op, q3 := Last(q), Front(q);
      if op.kind == NullToken then Solve(ops, q3, arg1.text, env)
      else if op.kind == OpenParen then Solved(Ok, q3 + [arg1], token, env)
      else if op.kind == Comma || op.kind.Function? then Solved(Ok, q3 + [op, arg1], token, env)
      else if op.kind == Unary(UnaryPlus) then Solve(ops, q3 + [arg1], token, env)
      else if op.kind.Unary? then
        match ops.unary(op.kind.u, arg1.text)
        case None => Broken(Err, env)
        case Some(v) =>
          Solve(ops, q3 + [Token(arg1.kind, v)], if op.kind.u == UnaryMinus then v else token, env)
      else
        var s := Operate(ops, op, arg1, q3, token, env);
        if s.status.Ok? then Solve(ops, s.q, s.token, s.env) else s
  }

  /** The part of a pass behind a binary operator: source/expression.c:447-590. */
  function Operate(ops: Ops, op: Token, arg1: Token, q: seq<Token>, token: string, env: Env): (r: Solved)
    ensures |r.q| <= |q| + 1
    decreases |q|, 10
  {
    if q == [] then Solved(Ok, [], token, env)
    else
      var t2, q4 := Last(q), Front(q);
      if t2.kind == NullToken then Solved(Ok, q4, token, env)
      else
        var o := SecondOperand(ops, t2, q4, token, env);
        if !o.status.Ok? then Broken(o.status, o.env) else
        var l := Signed(ops, o.arg.text, o.q);
        if l.left.None? || !op.kind.Binary? then Broken(Err, o.env)
        else
          match ops.binary(op.kind.op, arg1.text, l.left.value)
          case None => Broken(Err, o.env)
          case Some(v) => Solved(Ok, l.q + [Token(arg1.kind, v)], v, o.env)
  }

  datatype SignedLeft = SignedLeft(left: Option<string>, q: seq<Token>)

  /** The unary check on the second operand: source/expression.c:480-509. Whatever else stands
      there is put back, the null token of an empty queue included. */
  function Signed(ops: Ops, left: string, q: seq<Token>): (r: SignedLeft)
    ensures |r.q| <= |q| || (q == [] && r.q == [NULL_TOKEN])
  {
    if q == [] then SignedLeft(Some(left), [NULL_TOKEN])
    else
      var k := Last(q).kind;
      if k == Unary(UnaryPlus) then SignedLeft(Some(left), Front(q))
      else if k.Unary? then SignedLeft(ops.unary(k.u, left), Front(q))
      else SignedLeft(Some(left), q)
  }

  /** source/expression.c:600-700, the body of the function left to `ops.call`. */
  function SolveFunction(ops: Ops, q: seq<Token>, token: string, env: Env): (r: Solved)
    ensures |r.q| <= |q|
    decreases |q|, 6
  {
    var a := SolveArgs(ops, q, 0, "", "", "", env);
    if !a.status.Ok? then Broken(a.status, a.env)
    else
      match ops.call(a.fn, a.commas, a.a0, a.a1, a.a2, a.env)
      case Failed(e) => Broken(Err, e)
      case Returned(k, text, e) => Solved(Ok, a.q + [Token(Value(k.AsValue()), text)], text, e)
  }

  /** The argument loop: source/expression.c:636-682. */
  function SolveArgs(ops: Ops, q: seq<Token>, n: nat, a0: string, a1: string, a2: string,
                     env: Env): (r: Args)
    ensures r.status.Ok? ==> |r.q| < |q|
    decreases |q|, 5
  {
    if q == [] then
      Args(if n > 2 then Err else Hang, 0, n, a0, a1, a2, [], env)
    else
      var t := Last(q);
      if t.kind.Function? then Args(Ok, t.kind.id, n, a0, a1, a2, Front(q), env)
      else if t.kind == Comma then SolveArgs(ops, Front(q), n + 1, a0, a1, a2, env)
      else
        var o := Dequeued(Solve(ops, q, t.text, env));
        if !o.status.Ok? then Args(o.status, 0, n, a0, a1, a2, [], o.env)
        else if n > 2 then Args(Err, 0, n, a0, a1, a2, [], o.env)
        else SolveArgs(ops, o.q, n,
                       if n == 0 then o.arg.text else a0,
                       if n == 1 then o.arg.text else a1,
                       if n == 2 then o.arg.text else a2, o.env)
  }

  datatype Outcome = Outcome(status: Status, idx: nat, token: string, env: Env)

  /** source/expression.c:66-97 */
  function Evaluate(ops: Ops, p: seq<Token>, env: Env, i: nat): (r: Outcome)
    requires i <= |p|
    ensures i <= r.idx <= |p|
  {
    var a := ParseExpr(ops, p, env, i, []);
    if !a.status.Ok? then Outcome(a.status, a.idx, "", env)
    else
      var s := Solve(ops, a.q, "", env);
      Outcome(s.status, a.idx, if s.status.Ok? then s.token else "", s.env)
  }
}
