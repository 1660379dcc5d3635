/** `solve` takes the value of a tree off the queue. */
module ExpressionSolving {
  import opened Tokens
  import opened Expression
  import opened ExpressionTree

  function Queued(v: TypedText): Token { Token(Value(v.v), v.text) }

  /** The last token of a queued operand is never the null token, a comma or an operator. */
  lemma LastOfTerm(t: Term)
    ensures var k := Last(TermQueue(t)).kind; k.Value? || k == CloseParen || k == FunctionEnd
    ensures t.Atom? || t.Un? || !Last(TermQueue(t)).kind.Value?
    decreases t
  {
    match t
    case Atom(_, _) =>
    case Un(u, t1) => LastOfTerm(t1); assert Last(TermQueue(t)) == Last(TermQueue(t1));
    case Paren(_) =>
    case Call(_, _) =>
  }

  lemma LastOfExpr(e: Expr)
    ensures var k := Last(ExprQueue(e)).kind; k.Value? || k == CloseParen || k == FunctionEnd
  {
    match e
    case One(t) => LastOfTerm(t);
    case Bin(_, _, rest) => LastOfExpr(rest);
      assert Last(ExprQueue(e)) == Last(ExprQueue(rest));
  }

  // ---------------------------------------------------------------- single passes of `solve`

  /** Where `solve` stops inside a parenthesis, an argument list or a call. */
  predicate Stops(k: Kind) { k == OpenParen || k == Comma || k.Function? }

  function Kept(pre: seq<Token>): seq<Token>
    requires pre != []
  {
    if Last(pre).kind == OpenParen then Front(pre) else pre
  }

  /** A pass whose first operand is a value. */
  lemma PassStarts(ops: Ops, q: seq<Token>, v: TypedText, token: string, env: Env)
    ensures Solve(ops, q + [Queued(v)], token, env) == Reduce(ops, Queued(v), q, token, env)
  {
    hide SolveFunction, Reduce;
    assert Front(q + [Queued(v)]) == q;
  }

  lemma PassStops(ops: Ops, pre: seq<Token>, v: TypedText, token: string, env: Env)
    requires pre != [] && Stops(Last(pre).kind)
    ensures Solve(ops, pre + [Queued(v)], token, env) == Solved(Ok, Kept(pre) + [Queued(v)], token, env)
  {
    hide SolveFunction, SolveArgs, SecondOperand, Signed;
    assert Front(pre + [Queued(v)]) == pre;
    assert Front(pre) + [Last(pre), Queued(v)] == pre + [Queued(v)];
  }

  lemma PassEnds(ops: Ops, pre: seq<Token>, v: TypedText, token: string, env: Env)
    requires pre == [] || pre == [NULL_TOKEN]
    ensures Solve(ops, pre + [Queued(v)], token, env) == Solved(Ok, [], v.text, env)
  {
    hide SolveFunction, SolveArgs, SecondOperand, Signed;
    assert Front(pre + [Queued(v)]) == pre;
    assert Front([NULL_TOKEN]) == [];
    assert Solve(ops, [], v.text, env) == Solved(Ok, [], v.text, env);
    assert Solve(ops, pre + [Queued(v)], token, env) == Reduce(ops, Queued(v), pre, token, env);
  }

  /** A pass with a sign under the value. */
  lemma PassSigns(ops: Ops, pre: seq<Token>, u: UnaryOp, v: TypedText, token: string, env: Env)
    returns (token': string)
    ensures var r := Prefix(ops, u, Valued(Some(v), env));
            var s := Solve(ops, pre + [Sign(Unary(u))] + [Queued(v)], token, env);
            if r.value.None? then s.status == Err && s.env == env
            else s == Solve(ops, pre + [Queued(r.value.value)], token', env)
  {
    hide Solve, SolveFunction, SolveArgs, Operate;
    PassStarts(ops, pre + [Sign(Unary(u))], v, token, env);
    assert Front(pre + [Sign(Unary(u))]) == pre;
    var r := Prefix(ops, u, Valued(Some(v), env));
    token' := if u == UnaryMinus && r.value.Some? then r.value.value.text else token;
  }

  // ---------------------------------------------------------------- the induction

  /** `solve` on `pre` and the queued tree behaves as on `pre` and the tree's value. */
  ghost predicate Solves(ops: Ops, pre: seq<Token>, q: seq<Token>, token: string, env: Env, r: Valued, token': string)
  {
    var s := Solve(ops, pre + q, token, env);
    if r.value.None? then s.status == Err && s.env == r.env
    else s == Solve(ops, pre + [Queued(r.value.value)], token', r.env)
  }

  /** What the operand fetch makes of a queued operand standing on `pre`. */
  ghost predicate Fetches(ops: Ops, pre: seq<Token>, q: seq<Token>, token: string, env: Env, r: Valued, token': string)
    requires q != []
  {
    var o := Operand(ops, Last(q), pre + Front(q), token, env);
    if r.value.None? then o.status == Err && o.env == r.env
    else o == Fetched(Ok, Queued(r.value.value), pre, token', r.env)
  }

  lemma SolvesFetched(ops: Ops, pre: seq<Token>, q: seq<Token>, token: string, env: Env, r: Valued, token': string)
    requires q != [] && Fetches(ops, pre, q, token, env, r, token')
    ensures Solves(ops, pre, q, token, env, r, token')
  {
    hide SolveFunction, SolveArgs, Reduce;
    assert Last(pre + q) == Last(q) && Front(pre + q) == pre + Front(q);
    var o := Operand(ops, Last(q), pre + Front(q), token, env);
    assert Solve(ops, pre + q, token, env)
        == if o.status.Ok? then Reduce(ops, o.arg, o.q, o.token, o.env) else Broken(o.status, o.env);
    if r.value.Some? {
      var v := Queued(r.value.value);
      assert Front(pre + [v]) == pre && Last(pre + [v]) == v;
      PassStarts(ops, pre, r.value.value, token', r.env);
    }
  }

  /** An operand that carries no sign is fetched as its value. */
  lemma {:induction false} FetchesTerm(ops: Ops, pre: seq<Token>, t: Term, token: string, env: Env)
    returns (token': string)
    requires !t.Un?
    ensures Fetches(ops, pre, TermQueue(t), token, env, EvalTerm(ops, t, env), token')
    decreases t, 0
  {
    hide Solve, SolveFunction;
    var q := TermQueue(t);
    match t
    case Atom(v, s) =>
      assert Front(q) == [] && pre + [] == pre;
      token' := token;
    case Paren(e) =>
      var inner := pre + [Sign(OpenParen)];
      assert pre + Front(q) == inner + ExprQueue(e);
      assert Front(inner) == pre;
      token' := SolvesInside(ops, inner, e, token, env);
      var r := Eval(ops, e, env);
      if r.value.Some? {
        assert Front(pre + [Queued(r.value.value)]) == pre;
      }
    case Call(f, args) =>
      assert pre + Front(q) == pre + [Sign(Function(f))] + ArgQueue(args);
      token' := SolvesCall(ops, pre, f, args, token, env);
      var r := EvalTerm(ops, t, env);
      if r.value.Some? {
        assert Front(pre + [Queued(r.value.value)]) == pre;
      }
  }

  /** Inside a parenthesis, an argument list or a call, `solve` leaves the value and stops. */
  lemma {:induction false} SolvesInside(ops: Ops, pre: seq<Token>, e: Expr, token: string, env: Env)
    returns (token': string)
    requires pre != [] && Stops(Last(pre).kind)
    ensures var r := Eval(ops, e, env);
            var s := Solve(ops, pre + ExprQueue(e), token, env);
            if r.value.None? then s.status == Err && s.env == r.env
            else s == Solved(Ok, Kept(pre) + [Queued(r.value.value)], token', r.env)
    decreases e, 2
  {
    hide Solve;
    token' := SolvesExpr(ops, pre, e, token, env);
    var r := Eval(ops, e, env);
    if r.value.Some? {
      PassStops(ops, pre, r.value.value, token', r.env);
    }
  }

  lemma {:induction false} SolvesCall(ops: Ops, pre: seq<Token>, f: nat, args: Arguments, token: string, env: Env)
    returns (token': string)
    ensures var r := EvalTerm(ops, Call(f, args), env);
            var s := SolveFunction(ops, pre + [Sign(Function(f))] + ArgQueue(args), token, env);
            if r.value.None? then s.status == Err && s.env == r.env
            else s == Solved(Ok, pre + [Queued(r.value.value)], token', r.env)
    decreases args, 3
  {
    hide Solve, SolveArgs, EvalArgs, SolveFunction, ArgsFrom;
    var base := pre + [Sign(Function(f))];
    var s := EvalArgs(ops, args, env);
    if args.NoArgs? {
      NoArguments(ops, base, env);
    } else {
      SolvesArgs(ops, base, args.e, args.more, env);
      SomeArgument(ops, args.e, args.more, env);
    }
    CallSolved(ops, pre, f, base + ArgQueue(args), token, env, s, if s.texts == [] then 0 else |s.texts| - 1);
    var r := EvalTerm(ops, Call(f, args), env);
    token' := if r.value.Some? then r.value.value.text else "";
  }

  lemma NoArguments(ops: Ops, base: seq<Token>, env: Env)
    ensures var s := EvalArgs(ops, NoArgs, env);
            s.ok && s.texts == [] && base + ArgQueue(NoArgs) == base
              && SolveArgs(ops, base, 0, "", "", "", env) == ArgsFrom(ops, base, 0, s)
  {
    hide Solve, SolveArgs;
    assert base + [] == base;
  }

  lemma SomeArgument(ops: Ops, e: Expr, more: Arguments, env: Env)
    ensures EvalArgs(ops, Arg(e, more), env).ok ==> EvalArgs(ops, Arg(e, more), env).texts != []
  {
    hide Eval;
  }

  lemma FunctionFound(ops: Ops, pre: seq<Token>, f: nat, n: nat, s: Slots)
    ensures ArgsFrom(ops, pre + [Sign(Function(f))], n, s)
         == Args(Ok, f, n, Slot(s.texts, 0), Slot(s.texts, 1), Slot(s.texts, 2), pre, s.env)
  {
    hide Solve, Slot;
    assert Front(pre + [Sign(Function(f))]) == pre;
  }

  /** The arguments taken, the function below them is called. */
  lemma CallSolved(ops: Ops, pre: seq<Token>, f: nat, q: seq<Token>, token: string, env: Env, s: Slots, n: nat)
    requires var a := SolveArgs(ops, q, 0, "", "", "", env);
             if s.ok then a == ArgsFrom(ops, pre + [Sign(Function(f))], n, s) else a.status == Err && a.env == s.env
    requires n == if s.texts == [] then 0 else |s.texts| - 1
    ensures var r := Apply(ops, f, s);
            var o := SolveFunction(ops, q, token, env);
            if r.value.None? then o.status == Err && o.env == r.env
            else o == Solved(Ok, pre + [Queued(r.value.value)], r.value.value.text, r.env)
  {
    hide Solve, SolveArgs, ArgsFrom, Slot;
    FunctionFound(ops, pre, f, n, s);
  }

  /** `solve_function` at some point of its argument loop. */
  ghost function ArgsFrom(ops: Ops, q: seq<Token>, commas: nat, s: Slots): Args {
    SolveArgs(ops, q, commas, Slot(s.texts, 0), Slot(s.texts, 1), Slot(s.texts, 2), s.env)
  }

  lemma {:induction false} SolvesArgs(ops: Ops, base: seq<Token>, e: Expr, more: Arguments, env: Env)
    requires base != [] && (Last(base).kind == Comma || Last(base).kind.Function?)
    ensures var s := EvalArgs(ops, Arg(e, more), env);
            var a := SolveArgs(ops, base + ArgQueue(Arg(e, more)), 0, "", "", "", env);
            if s.ok then a == ArgsFrom(ops, base, |s.texts| - 1, s)
            else a.status == Err && a.env == s.env
    decreases Arg(e, more), 2
  {
    hide Solve;
    var s0 := EvalArgs(ops, more, env);
    var q1 := base + ExprQueue(e);
    if more.NoArgs? {
      assert base + (ExprQueue(e) + []) == q1;
    } else {
      assert base + ArgQueue(Arg(e, more)) == (q1 + [Sign(Comma)]) + ArgQueue(more);
      SolvesArgs(ops, q1 + [Sign(Comma)], more.e, more.more, env);
      if s0.ok {
        CommaCounts(ops, q1, |s0.texts| - 1, s0);
      }
    }
    if s0.ok {
      assert SolveArgs(ops, base + ArgQueue(Arg(e, more)), 0, "", "", "", env)
          == ArgsFrom(ops, q1, |s0.texts|, s0);
      SolvesArg(ops, base, e, s0);
    }
  }

  lemma CommaCounts(ops: Ops, q: seq<Token>, n: nat, s: Slots)
    ensures ArgsFrom(ops, q + [Sign(Comma)], n, s) == ArgsFrom(ops, q, n + 1, s)
  {
    hide Solve;
    assert Front(q + [Sign(Comma)]) == q;
  }

  /** One argument: its value goes to the slot of its number, a fourth is refused. */
  lemma {:induction false} SolvesArg(ops: Ops, base: seq<Token>, e: Expr, s0: Slots)
    requires base != [] && (Last(base).kind == Comma || Last(base).kind.Function?)
    requires s0.ok && |s0.texts| <= 3
    ensures var v := Eval(ops, e, s0.env);
            var a := ArgsFrom(ops, base + ExprQueue(e), |s0.texts|, s0);
            if v.value.None? || |s0.texts| > 2 then a.status == Err && a.env == v.env
            else a == ArgsFrom(ops, base, |s0.texts|, Slots(true, s0.texts + [v.value.value.text], v.env))
    decreases e, 3
  {
    hide Solve;
    var q := base + ExprQueue(e);
    LastOfExpr(e);
    assert Last(q) == Last(ExprQueue(e));
    var token' := SolvesInside(ops, base, e, Last(q).text, s0.env);
    var v := Eval(ops, e, s0.env);
    if v.value.Some? {
      assert Front(base + [Queued(v.value.value)]) == base;
    }
  }

  ghost predicate Free(pre: seq<Token>) { pre == [] || !Last(pre).kind.Unary? }

  /** The bottom of the queue once a non-operator was read and put back there. */
  function Based(pre: seq<Token>): seq<Token> { if pre == [] then [NULL_TOKEN] else pre }

  lemma {:induction false} SolvesExpr(ops: Ops, pre: seq<Token>, e: Expr, token: string, env: Env)
    returns (token': string)
    requires pre != [] && Free(pre)
    ensures Solves(ops, pre, ExprQueue(e), token, env, Eval(ops, e, env), token')
    decreases e, 1
  {
    hide Solve;
    match e
    case One(t) =>
      token' := SolvesTerm(ops, pre, t, token, env);
    case Bin(t, op, rest) =>
      var pre1 := pre + TermQueue(t) + [Sign(Binary(op))];
      assert pre + ExprQueue(e) == pre1 + ExprQueue(rest);
      token' := SolvesExpr(ops, pre1, rest, token, env);
      var r := Eval(ops, rest, env);
      if r.value.Some? {
        token' := SolvesLeft(ops, pre, t, op, r.value.value, token', r.env);
      }
  }

  lemma {:induction false} SolvesTerm(ops: Ops, pre: seq<Token>, t: Term, token: string, env: Env)
    returns (token': string)
    ensures Solves(ops, pre, TermQueue(t), token, env, EvalTerm(ops, t, env), token')
    decreases t, 1
  {
    hide Solve;
    if t.Un? {
      var u := Sign(Unary(t.prefix));
      assert pre + TermQueue(t) == (pre + [u]) + TermQueue(t.t);
      token' := SolvesTerm(ops, pre + [u], t.t, token, env);
      var r := EvalTerm(ops, t.t, env);
      if r.value.Some? {
        token' := PassSigns(ops, pre, t.prefix, r.value.value, token', r.env);
      }
    } else {
      token' := FetchesTerm(ops, pre, t, token, env);
      SolvesFetched(ops, pre, TermQueue(t), token, env, EvalTerm(ops, t, env), token');
    }
  }

  /** The pass over `t op right`: the operand, its innermost sign, the operator. */
  lemma {:induction false} SolvesLeft(ops: Ops, pre: seq<Token>, t: Term, op: BinaryOp, right: TypedText,
                                      token: string, env: Env) returns (token': string)
    requires !t.Un? ==> Free(pre)
    ensures var base := if t.Un? then pre else Based(pre);
            var r := EvalLeft(ops, t, op, right, env);
            var s := Solve(ops, pre + TermQueue(t) + [Sign(Binary(op))] + [Queued(right)], token, env);
            if r.value.None? then s.status == Err && s.env == r.env
            else s == Solve(ops, base + [Queued(r.value.value)], token', r.env)
    decreases t, 1
  {
    hide Solve, Fetches, Prefix, Combine, Combined;
    if t.Un? && t.t.Un? {
      var u := Sign(Unary(t.prefix));
      assert pre + TermQueue(t) == (pre + [u]) + TermQueue(t.t);
      token' := SolvesLeft(ops, pre + [u], t.t, op, right, token, env);
      var r := EvalLeft(ops, t.t, op, right, env);
      if r.value.Some? {
        token' := PassSigns(ops, pre, t.prefix, r.value.value, token', r.env);
        PrefixValue(ops, t.prefix, r);
      } else {
        PrefixNothing(ops, t.prefix, r);
      }
    } else if t.Un? {
      token' := SolvesSigned(ops, pre, t.prefix, t.t, op, right, token, env);
    } else {
      var mid := FetchesTerm(ops, pre, t, token, env);
      LastOfTerm(t);
      var left := EvalTerm(ops, t, env);
      token' := PassCombines(ops, pre, TermQueue(t), op, right, token, env, left, mid);
      if left.value.Some? {
        CombinedPlain(ops, op, right, left, pre);
      } else {
        NothingCombined(ops, op, right, left, UnaryPlus);
        PrefixNothing(ops, UnaryPlus, left);
      }
    }
  }

  lemma PrefixValue(ops: Ops, u: UnaryOp, x: Valued)
    requires x.value.Some?
    ensures Prefix(ops, u, x) == Prefix(ops, u, Valued(Some(x.value.value), x.env)) && Prefix(ops, u, x).env == x.env
  {
  }

  lemma PrefixNothing(ops: Ops, u: UnaryOp, x: Valued)
    requires x.value.None?
    ensures Prefix(ops, u, x) == x
  {
  }

  lemma CombinedPlain(ops: Ops, op: BinaryOp, right: TypedText, left: Valued, pre: seq<Token>)
    requires left.value.Some? && Free(pre)
    ensures var (x, q) := Combined(ops, op, right, left, pre);
            q == Based(pre) && x == Combine(ops, op, right, left) && (x.value.None? ==> x.env == left.env)
  {
  }

  lemma {:induction false} SolvesSigned(ops: Ops, pre: seq<Token>, u: UnaryOp, t: Term, op: BinaryOp, right: TypedText,
                                        token: string, env: Env) returns (token': string)
    requires !t.Un?
    ensures var r := Combine(ops, op, right, EvalTerm(ops, Un(u, t), env));
            var s := Solve(ops, pre + TermQueue(Un(u, t)) + [Sign(Binary(op))] + [Queued(right)], token, env);
            if r.value.None? then s.status == Err && s.env == r.env
            else s == Solve(ops, pre + [Queued(r.value.value)], token', r.env)
    decreases t, 1
  {
    hide Solve, Fetches, Combined, Combine, Prefix, EvalTerm;
    var pre1 := pre + [Sign(Unary(u))];
    assert pre + TermQueue(Un(u, t)) == pre1 + TermQueue(t);
    LastOfTerm(t);
    var mid := FetchesTerm(ops, pre1, t, token, env);
    var left := EvalTerm(ops, t, env);
    token' := PassCombines(ops, pre1, TermQueue(t), op, right, token, env, left, mid);
    PrefixMeaning(ops, u, t, env);
    if left.value.Some? {
      CombinedSigned(ops, op, right, left, pre, u);
    } else {
      NothingCombined(ops, op, right, left, u);
    }
  }

  lemma PrefixMeaning(ops: Ops, u: UnaryOp, t: Term, env: Env)
    ensures EvalTerm(ops, Un(u, t), env) == Prefix(ops, u, EvalTerm(ops, t, env))
  {
    hide Prefix;
  }

  lemma CombinedSigned(ops: Ops, op: BinaryOp, right: TypedText, left: Valued, pre: seq<Token>, u: UnaryOp)
    requires left.value.Some?
    ensures var (x, q) := Combined(ops, op, right, left, pre + [Sign(Unary(u))]);
            var r := Combine(ops, op, right, Prefix(ops, u, left));
            q == pre && x == r && (x.value.None? ==> x.env == left.env)
  {
    assert Front(pre + [Sign(Unary(u))]) == pre;
  }

  lemma NothingCombined(ops: Ops, op: BinaryOp, right: TypedText, left: Valued, u: UnaryOp)
    requires left.value.None?
    ensures Combine(ops, op, right, Prefix(ops, u, left)) == left
  {
  }

  /** The part of a pass behind the second operand. */
  function Combined(ops: Ops, op: BinaryOp, right: TypedText, left: Valued, pre: seq<Token>): (Valued, seq<Token>)
    requires left.value.Some?
  {
    var l := Signed(ops, left.value.value.text, pre);
    var x := match l.left
             case None => Valued(None, left.env)
             case Some(s) => Combine(ops, op, right, Valued(Some(TypedText(left.value.value.v, s)), left.env));
    (x, l.q)
  }

  /** A pass over an operator whose second operand is the queued `q`. */
  lemma PassCombines(ops: Ops, pre: seq<Token>, q: seq<Token>, op: BinaryOp, right: TypedText, token: string, env: Env,
                     left: Valued, mid: string) returns (token': string)
    requires q != [] && Fetches(ops, pre, q, token, env, left, mid)
    requires Last(q).kind.Value? || Last(q).kind == CloseParen || Last(q).kind == FunctionEnd
    ensures var s := Solve(ops, pre + q + [Sign(Binary(op))] + [Queued(right)], token, env);
            if left.value.None? then s.status == Err && s.env == left.env
            else
              var (x, q') := Combined(ops, op, right, left, pre);
              if x.value.None? then s.status == Err && s.env == left.env
              else s == Solve(ops, q' + [Queued(x.value.value)], token', x.env)
  {
    hide SolveFunction, Operand, Solve;
    var o := Sign(Binary(op));
    PassStarts(ops, pre + q + [o], right, token, env);
    assert Front(pre + q + [o]) == pre + q;
    assert Last(pre + q) == Last(q) && Front(pre + q) == pre + Front(q);
    assert SecondOperand(ops, Last(q), pre + Front(q), token, env) == Operand(ops, Last(q), pre + Front(q), token, env);
    token' := "";
    var r := Operate(ops, o, Queued(right), pre + q, token, env);
    assert Reduce(ops, Queued(right), pre + q + [o], token, env)
        == if r.status.Ok? then Solve(ops, r.q, r.token, r.env) else r;
    if left.value.Some? {
      var x := Combined(ops, op, right, left, pre).0;
      token' := if x.value.Some? then x.value.value.text else "";
    }
  }
}
