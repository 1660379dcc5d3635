/** The imperative form of source/expression.c: recursive descent onto a shared stack, then the
    two mutually recursive consumers. Every method is proved against its function in Expression. */
module Evaluators {
  import opened Tokens
  import opened ProgramText
  import opened Expression

  /** The variable store the functions of an expression may write. */
  class Variables {
    var env: Env

    constructor (env: Env)
      ensures this.env == env
    {
      this.env := env;
    }
  }

  class Evaluator {
    const ops: Ops
    const program: StoredProgram
    const vars: Variables
    var q: seq<Token>

    ghost predicate Valid()
      reads this, program
    {
      program.Valid() && program.resolve == ops.resolve && |q| <= MAX_Q
    }

    constructor (ops: Ops, program: StoredProgram, vars: Variables)
      requires program.Valid() && program.resolve == ops.resolve
      ensures Valid() && this.ops == ops && this.program == program && this.vars == vars
    {
      this.ops, this.program, this.vars, q := ops, program, vars, [];
    }

    /** Fatal on a full queue: source/expression.c:2090-2124. */
    method QToken(t: Token) returns (status: Status)
      requires |q| <= MAX_Q
      modifies this
      ensures status == if |old(q)| >= MAX_Q then Fatal else Ok
      ensures q == if |old(q)| >= MAX_Q then old(q) else old(q) + [t]
    {
      if |q| >= MAX_Q {
        return Fatal;
      }
      q := q + [t];
      return Ok;
    }

    /** source/expression.c:2128-2159 */
    method DqToken() returns (t: Token)
      modifies this
      ensures t == if old(q) == [] then NULL_TOKEN else Last(old(q))
      ensures q == if old(q) == [] then [] else Front(old(q))
    {
      if q == [] {
        return NULL_TOKEN;
      }
      t := q[|q| - 1];
      q := q[..|q| - 1];
    }

    method Expr() returns (status: Status)
      requires Valid()
      modifies this, program
      ensures Valid()
      ensures ParseExpr(ops, program.tokens, vars.env, old(program.at), old(q)) == Parse(status, program.at, q)
      decreases |program.tokens| - program.at, 1
    {
      hide AllStorable, StoredAll, Offset;
      ghost var env := vars.env;
      status := Term();
      if !status.Ok? {
        return;
      }
      while true
        invariant Valid() && old(program.at) < program.at
        invariant ParseExpr(ops, program.tokens, env, old(program.at), old(q))
               == ParseRest(ops, program.tokens, env, program.at, q)
        decreases |program.tokens| - program.at
      {
        var t := program.GetToken(vars.env);
        if IsOperator(t.kind) {
          status := QToken(t);
          if status.Fatal? {
            return;
          }
          status := Term();
          if !status.Ok? {
            return;
          }
        } else {
          program.PutToken();
          return Ok;
        }
      }
    }

    method Term() returns (status: Status)
      requires Valid()
      modifies this, program
      ensures Valid()
      ensures ParseTerm(ops, program.tokens, vars.env, old(program.at), old(q)) == Parse(status, program.at, q)
      decreases |program.tokens| - program.at, 0
    {
      hide AllStorable, StoredAll, Offset;
      var t := program.GetToken(vars.env);
      if t.kind.Function? {
        status := QToken(t);
        if status.Fatal? {
          return;
        }
        status := Func();
      } else if t.kind.Value? {
        status := QToken(t);
      } else if PrefixOf(t.kind).Some? {
        status := QToken(Token(Unary(PrefixOf(t.kind).value), t.text));
        if status.Fatal? {
          return;
        }
        status := Term();
        // The result of the inner call is not looked at.
        if status.Err? {
          status := Ok;
        }
      } else if t.kind == OpenParen {
        status := QToken(t);
        if status.Fatal? {
          return;
        }
        status := Expr();
        if !status.Ok? {
          return;
        }
        t := program.GetToken(vars.env);
        if t.kind == CloseParen {
          status := QToken(t);
        } else {
          status := Err;
        }
      } else {
        status := Err;
      }
    }

    method Func() returns (status: Status)
      requires Valid()
      modifies this, program
      ensures Valid()
      ensures ParseCall(ops, program.tokens, vars.env, old(program.at), old(q)) == Parse(status, program.at, q)
      decreases |program.tokens| - program.at, 2
    {
      hide ParseExpr, AllStorable, StoredAll, Offset;
      ghost var env, p := vars.env, program.tokens;
      var t := program.GetToken(vars.env);
      if t.kind != OpenParen {
        return Err;
      }
      t := program.GetToken(vars.env);
      if t.kind == CloseParen {
        status := QToken(Token(FunctionEnd, t.text));
        return;
      }
      program.PutToken();
      status := Expr();
      if !status.Ok? {
        return;
      }
      while true
        invariant Valid() && program.at > old(program.at)
        invariant ParseCall(ops, p, env, old(program.at), old(q)) == ParseMore(ops, p, env, program.at, q)
        decreases |program.tokens| - program.at
      {
        t := program.GetToken(vars.env);
        if t.kind == CloseParen {
          status := QToken(Token(FunctionEnd, t.text));
          return;
        } else if t.kind == Comma {
          status := QToken(t);
          if status.Fatal? {
            return;
          }
          status := Expr();
          if !status.Ok? {
            return;
          }
        } else {
          return Err;
        }
      }
    }

    /** What a solving step leaves: on success exactly what the function says, on failure the
        status and the variables. */
    ghost predicate Leaves(status: Status, token: string, r: Solved)
      reads this, vars
    {
      status == r.status && vars.env == r.env && (status.Ok? ==> q == r.q && token == r.token)
    }

    /** The loop of `solve`. The queue shrinks from one round to the next and never outgrows its
        length on entry, so no push fails. */
    method SolveLoop(token0: string) returns (status: Status, token: string)
      requires Valid()
      modifies this, vars
      ensures |q| <= |old(q)|
      ensures Leaves(status, token, Solve(ops, old(q), token0, old(vars.env)))
      decreases |q|, 1
    {
      hide AllStorable, StoredAll, Offset;
      token := token0;
      ghost var goal := Solve(ops, q, token0, vars.env);
      while q != []
        invariant |q| <= |old(q)|
        invariant Solve(ops, q, token, vars.env) == goal
        decreases |q|
      {
        hide Operand, Operate;
        var arg1 := DqToken();
        status, arg1, token := Fetch(arg1, token);
        if !status.Ok? {
          return;
        }
        var op := DqToken();
        if op.kind == NullToken {
          token := arg1.text;
          continue;
        }
        if op.kind == OpenParen {
          status := QToken(arg1);
          return;
        } else if op.kind == Comma || op.kind.Function? {
          status := QToken(op);
          status := QToken(arg1);
          return;
        } else if op.kind == Unary(UnaryPlus) {
          status := QToken(arg1);
          continue;
        } else if op.kind.Unary? {
          var v := ops.unary(op.kind.u, arg1.text);
          if v.None? {
            return Err, token;
          }
          if op.kind.u == UnaryMinus {
            token := v.value;
          }
          status := QToken(Token(arg1.kind, v.value));
          continue;
        }
        status, token := OperateOn(op, arg1, token);
        if !status.Ok? {
          return;
        }
      }
      status := Ok;
    }

    /** source/expression.c:365-385 */
    method Fetch(t: Token, token0: string) returns (status: Status, arg: Token, token: string)
      requires Valid()
      modifies this, vars
      ensures |q| <= |old(q)|
      ensures var r := Operand(ops, t, old(q), token0, old(vars.env));
              status == r.status && vars.env == r.env && (status.Ok? ==> arg == r.arg && q == r.q && token == r.token)
      decreases |q|, 7
    {
      hide AllStorable, StoredAll, Offset;
      arg, token, status := t, token0, Ok;
      if t.kind == CloseParen {
        status, token := SolveLoop(token);
        if status.Ok? {
          arg := DqToken();
        }
      } else if t.kind == FunctionEnd {
        status, token := SolveFunctionCall(token);
        if status.Ok? {
          arg := DqToken();
        }
      }
    }

    /** source/expression.c:447-590 */
    method OperateOn(op: Token, arg1: Token, token0: string) returns (status: Status, token: string)
      requires Valid()
      modifies this, vars
      ensures |q| <= |old(q)| + 1
      ensures Leaves(status, token, Operate(ops, op, arg1, old(q), token0, old(vars.env)))
      decreases |q|, 10
    {
      hide Signed, AllStorable, StoredAll, Offset;
      hide Operand;
      token := token0;
      var arg2 := DqToken();
      if arg2.kind == NullToken {
        return Ok, token;
      }
      var double := arg2.kind == FunctionEnd;
      status, arg2, token := Fetch(arg2, token);
      if !status.Ok? {
        return;
      }
      if double && arg2.kind == CloseParen {
        status, arg2, token := Fetch(arg2, token);
        if !status.Ok? {
          return;
        }
      }
      var left;
      status, left := TakeSign(arg2.text);
      if !status.Ok? {
        return;
      }
      if !op.kind.Binary? {
        return Err, token;
      }
      var v := ops.binary(op.kind.op, arg1.text, left);
      if v.None? {
        return Err, token;
      }
      token := v.value;
      status := QToken(Token(arg1.kind, token));
    }

    /** source/expression.c:480-509 */
    method TakeSign(text: string) returns (status: Status, left: string)
      requires Valid() && |q| < MAX_Q
      modifies this
      ensures |q| <= |old(q)| || |q| == 1
      ensures var r := Signed(ops, text, old(q));
              status == (if r.left.Some? then Ok else Err) && (status.Ok? ==> left == r.left.value && q == r.q)
    {
      hide AllStorable, StoredAll, Offset;
      ghost var q0 := q;
      left, status := text, Ok;
      var sign := DqToken();
      if sign.kind.Unary? {
        if sign.kind.u != UnaryPlus {
          var v := ops.unary(sign.kind.u, left);
          if v.None? {
            return Err, left;
          }
          left := v.value;
        }
      } else {
        status := QToken(sign);
        assert q0 != [] ==> q == q0;
      }
    }

    /** source/expression.c:600-700 */
    method SolveFunctionCall(token0: string) returns (status: Status, token: string)
      requires Valid()
      modifies this, vars
      ensures |q| <= |old(q)|
      ensures Leaves(status, token, SolveFunction(ops, old(q), token0, old(vars.env)))
      decreases |q|, 6
    {
      hide Solve, AllStorable, StoredAll, Offset;
      token := token0;
      var n, a0, a1, a2 := 0, "", "", "";
      ghost var goal := SolveArgs(ops, q, 0, "", "", "", vars.env);
      while true
        invariant |q| <= |old(q)|
        invariant SolveArgs(ops, q, n, a0, a1, a2, vars.env) == goal
        decreases |q|
      {
        if q == [] {
          // With three slots filled a fourth empty argument is refused; before that the loop of
          // the source has nothing left to read and does not end.
          return if n > 2 then Err else Hang, token;
        }
        ghost var q0 := q;
        var t := DqToken();
        assert q + [t] == q0;
        token := t.text;
        if t.kind.Function? {
          var r := ops.call(t.kind.id, n, a0, a1, a2, vars.env);
          match r
          case Failed(e) =>
            vars.env := e;
            return Err, token;
          case Returned(k, text, e) =>
            vars.env := e;
            token := text;
            status := QToken(Token(Value(k.AsValue()), text));
            return;
        } else if t.kind == Comma {
          n := n + 1;
        } else {
          status := QToken(t);
          status, token := SolveLoop(token);
          if !status.Ok? {
            return;
          }
          var a := DqToken();
          token := a.text;
          if n == 0 {
            a0 := token;
          } else if n == 1 {
            a1 := token;
          } else if n == 2 {
            a2 := token;
          } else {
            return Err, token;
          }
        }
      }
    }

    /** `expression()`: source/expression.c:66-97 */
    method Expression() returns (status: Status, token: string)
      requires Valid()
      modifies this, program, vars
      ensures Valid()
      ensures Evaluate(ops, program.tokens, old(vars.env), old(program.at))
           == Outcome(status, program.at, token, vars.env)
    {
      hide ParseExpr, Solve, AllStorable, StoredAll, Offset;
      q, token := [], "";
      status := Expr();
      if status.Ok? {
        status, token := SolveLoop(token);
        if !status.Ok? {
          token := "";
        }
      }
    }
  }
}
