/** The queue and the solver compute the value of the tree. */
module ExpressionParsing {
  import opened Tokens
  import opened Programs
  import opened Expression
  import opened ExpressionTree

  /** The queue after pushing `s`, or the exit of the process when it does not fit. */
  ghost predicate Pushes(r: Parse, i: nat, q: seq<Token>, s: seq<Token>) {
    if |q + s| <= MAX_Q then r == Parse(Ok, i, q + s) else r.status == Fatal
  }

  // One lemma for each production: what the parts push, the whole pushes.

  lemma OnePushes(ops: Ops, p: seq<Token>, env: Env, i: nat, q: seq<Token>, n: nat, s: seq<Token>)
    requires i <= |p| && n <= |p|
    requires Pushes(ParseTerm(ops, p, env, i, q), n, q, s)
    requires !IsOperator(RawAt(p, n).kind)
    ensures Pushes(ParseExpr(ops, p, env, i, q), n, q, s)
  {
    hide ParseTerm;
  }

  lemma BinPushes(ops: Ops, p: seq<Token>, env: Env, i: nat, q: seq<Token>, j: nat, n: nat,
                  s: seq<Token>, op: Token, s1: seq<Token>)
    requires i <= |p| && j < |p| && p[j] == op && op.kind.Binary?
    requires Pushes(ParseTerm(ops, p, env, i, q), j, q, s)
    requires |q + s| < MAX_Q ==> Pushes(ParseExpr(ops, p, env, j + 1, (q + s) + [op]), n, (q + s) + [op], s1)
    ensures Pushes(ParseExpr(ops, p, env, i, q), n, q, s + ([op] + s1))
  {
    hide ParseTerm;
    assert q + (s + ([op] + s1)) == ((q + s) + [op]) + s1;
  }

  lemma AtomPushes(ops: Ops, p: seq<Token>, env: Env, i: nat, q: seq<Token>)
    requires i < |p| && p[i].kind.Value?
    ensures Pushes(ParseTerm(ops, p, env, i, q), i + 1, q, [TokenAt(ops.resolve, p, env, i)])
  {
    hide ParseExpr, ParseCall;
  }

  lemma PrefixPushes(ops: Ops, p: seq<Token>, env: Env, i: nat, q: seq<Token>, n: nat, u: UnaryOp, s: seq<Token>)
    requires i < |p| && p[i] == Sign(Written(u)) && |q| <= MAX_Q
    requires |q| < MAX_Q ==>
      Pushes(ParseTerm(ops, p, env, i + 1, q + [Sign(Unary(u))]), n, q + [Sign(Unary(u))], s)
    ensures Pushes(ParseTerm(ops, p, env, i, q), n, q, [Sign(Unary(u))] + s)
  {
    hide ParseExpr, ParseCall;
    assert q + ([Sign(Unary(u))] + s) == (q + [Sign(Unary(u))]) + s;
  }

  lemma ParenPushes(ops: Ops, p: seq<Token>, env: Env, i: nat, q: seq<Token>, n: nat, s: seq<Token>)
    requires i < |p| && p[i] == Sign(OpenParen) && |q| <= MAX_Q
    requires n < |p| && p[n] == Sign(CloseParen)
    requires |q| < MAX_Q ==>
      Pushes(ParseExpr(ops, p, env, i + 1, q + [Sign(OpenParen)]), n, q + [Sign(OpenParen)], s)
    ensures Pushes(ParseTerm(ops, p, env, i, q), n + 1, q, [Sign(OpenParen)] + (s + [Sign(CloseParen)]))
  {
    hide ParseExpr, ParseCall;
    assert q + ([Sign(OpenParen)] + (s + [Sign(CloseParen)])) == ((q + [Sign(OpenParen)]) + s) + [Sign(CloseParen)];
  }

  lemma NoArgsPushes(ops: Ops, p: seq<Token>, env: Env, i: nat, q: seq<Token>, f: Token)
    requires i + 2 < |p| && p[i] == f && f.kind.Function? && |q| <= MAX_Q
    requires p[i + 1] == Sign(OpenParen) && p[i + 2] == Sign(CloseParen)
    ensures Pushes(ParseTerm(ops, p, env, i, q), i + 3, q, [f] + ([] + [Sign(FunctionEnd)]))
  {
    hide ParseExpr, ParseArgs;
    assert q + ([f] + ([] + [Sign(FunctionEnd)])) == (q + [f]) + [Sign(FunctionEnd)];
  }

  lemma CallPushes(ops: Ops, p: seq<Token>, env: Env, i: nat, q: seq<Token>, n: nat, f: Token, s: seq<Token>)
    requires i + 2 < |p| && p[i] == f && f.kind.Function? && |q| <= MAX_Q
    requires p[i + 1] == Sign(OpenParen) && p[i + 2].kind != CloseParen
    requires |q| < MAX_Q ==> Pushes(ParseArgs(ops, p, env, i + 2, q + [f]), n, q + [f], s)
    ensures Pushes(ParseTerm(ops, p, env, i, q), n, q, [f] + s)
  {
    hide ParseExpr, ParseArgs;
    assert q + ([f] + s) == (q + [f]) + s;
  }

  lemma LastArgPushes(ops: Ops, p: seq<Token>, env: Env, i: nat, q: seq<Token>, n: nat, s: seq<Token>)
    requires i <= |p| && n < |p| && p[n] == Sign(CloseParen)
    requires Pushes(ParseExpr(ops, p, env, i, q), n, q, s)
    ensures Pushes(ParseArgs(ops, p, env, i, q), n + 1, q, s + [Sign(FunctionEnd)])
  {
    hide ParseExpr;
    assert q + (s + [Sign(FunctionEnd)]) == (q + s) + [Sign(FunctionEnd)];
  }

  lemma MoreArgPushes(ops: Ops, p: seq<Token>, env: Env, i: nat, q: seq<Token>, j: nat, n: nat,
                      s: seq<Token>, s1: seq<Token>)
    requires i <= |p| && j < |p| && p[j] == Sign(Comma)
    requires Pushes(ParseExpr(ops, p, env, i, q), j, q, s)
    requires |q + s| < MAX_Q ==>
      Pushes(ParseArgs(ops, p, env, j + 1, (q + s) + [Sign(Comma)]), n, (q + s) + [Sign(Comma)], s1)
    ensures Pushes(ParseArgs(ops, p, env, i, q), n, q, s + ([Sign(Comma)] + s1))
  {
    hide ParseExpr;
    assert q + (s + ([Sign(Comma)] + s1)) == ((q + s) + [Sign(Comma)]) + s1;
  }

  // The induction over the tree.

  /** An expression does not start with a closing parenthesis. */
  lemma FirstTokenOpens(p: seq<Token>, i: nat, e: Expr, rest: seq<Token>)
    requires At(p, i, ExprToks(e) + rest)
    ensures i < |p| && p[i].kind != CloseParen
  {
    var t := if e.One? then e.t else e.left;
    assert p[i + 0] == (ExprToks(e) + rest)[0] == TermToks(t)[0];
  }

  lemma {:induction false} ParseExprPushes(ops: Ops, p: seq<Token>, env: Env, i: nat, q: seq<Token>, e: Expr)
    requires At(p, i, ExprToks(e)) && |q| <= MAX_Q
    requires !IsOperator(RawAt(p, i + |ExprToks(e)|).kind)
    ensures Pushes(ParseExpr(ops, p, env, i, q), i + |ExprToks(e)|, q, ExprQueue(Resolved(ops, env, e)))
    decreases e, 1
  {
    hide ParseExpr, ParseTerm, ParseRest, At;
    AtBound(p, i, ExprToks(e));
    match e
    case One(t) =>
      ParseTermPushes(ops, p, env, i, q, t);
      OnePushes(ops, p, env, i, q, i + |TermToks(t)|, TermQueue(ResolvedTerm(ops, env, t)));
    case Bin(t, op, rest) =>
      AtSplit(p, i, TermToks(t), [Sign(Binary(op))] + ExprToks(rest));
      ParseTermPushes(ops, p, env, i, q, t);
      var j := i + |TermToks(t)|;
      AtHead(p, j, Sign(Binary(op)), ExprToks(rest));
      var tq := TermQueue(ResolvedTerm(ops, env, t));
      if |q + tq| < MAX_Q {
        ParseExprPushes(ops, p, env, j + 1, (q + tq) + [Sign(Binary(op))], rest);
      }
      BinPushes(ops, p, env, i, q, j, i + |ExprToks(e)|, tq, Sign(Binary(op)), ExprQueue(Resolved(ops, env, rest)));
  }

  lemma {:induction false} ParseTermPushes(ops: Ops, p: seq<Token>, env: Env, i: nat, q: seq<Token>, t: Term)
    requires At(p, i, TermToks(t)) && |q| <= MAX_Q
    ensures Pushes(ParseTerm(ops, p, env, i, q), i + |TermToks(t)|, q, TermQueue(ResolvedTerm(ops, env, t)))
    decreases t, 0
  {
    hide ParseExpr, ParseArgs, ParseCall, ParseTerm, At;
    match t
    case Atom(k, s) =>
      assert [Token(Value(k), s)] + [] == [Token(Value(k), s)];
      AtHead(p, i, Token(Value(k), s), []);
      AtomPushes(ops, p, env, i, q);
    case Un(u, t1) =>
      AtHead(p, i, Sign(Written(u)), TermToks(t1));
      if |q| < MAX_Q {
        ParseTermPushes(ops, p, env, i + 1, q + [Sign(Unary(u))], t1);
      }
      PrefixPushes(ops, p, env, i, q, i + |TermToks(t)|, u, TermQueue(ResolvedTerm(ops, env, t1)));
    case Paren(e) =>
      AtHead(p, i, Sign(OpenParen), ExprToks(e) + [Sign(CloseParen)]);
      AtSplit(p, i + 1, ExprToks(e), [Sign(CloseParen)]);
      var n := i + 1 + |ExprToks(e)|;
      assert [Sign(CloseParen)] + [] == [Sign(CloseParen)];
      AtHead(p, n, Sign(CloseParen), []);
      if |q| < MAX_Q {
        ParseExprPushes(ops, p, env, i + 1, q + [Sign(OpenParen)], e);
      }
      ParenPushes(ops, p, env, i, q, n, ExprQueue(Resolved(ops, env, e)));
    case Call(f, args) =>
      var ft := Sign(Function(f));
      AtHead(p, i, ft, [Sign(OpenParen)] + ArgToks(args));
      AtHead(p, i + 1, Sign(OpenParen), ArgToks(args));
      match args
      case NoArgs =>
        assert [Sign(CloseParen)] + [] == [Sign(CloseParen)];
        AtHead(p, i + 2, Sign(CloseParen), []);
        NoArgsPushes(ops, p, env, i, q, ft);
      case Arg(e, more) =>
        FirstTokenOpens(p, i + 2, e, MoreToks(more));
        if |q| < MAX_Q {
          ParseArgsPushes(ops, p, env, i + 2, q + [ft], e, more);
        }
        CallPushes(ops, p, env, i, q, i + |TermToks(t)|, ft,
                   ArgQueue(ResolvedArgs(ops, env, args)) + [Sign(FunctionEnd)]);
  }

  lemma {:induction false} ParseArgsPushes(ops: Ops, p: seq<Token>, env: Env, i: nat, q: seq<Token>,
                                           e: Expr, more: Arguments)
    requires At(p, i, ExprToks(e) + MoreToks(more)) && |q| <= MAX_Q
    ensures Pushes(ParseArgs(ops, p, env, i, q), i + |ExprToks(e)| + |MoreToks(more)|, q,
                   ArgQueue(ResolvedArgs(ops, env, Arg(e, more))) + [Sign(FunctionEnd)])
    decreases Arg(e, more), 2
  {
    hide ParseExpr, ParseArgs, Pushes, At, ExprToks, ExprQueue, Resolved;
    var eq := ExprQueue(Resolved(ops, env, e));
    AtSplit(p, i, ExprToks(e), MoreToks(more));
    var n := i + |ExprToks(e)|;
    match more
    case NoArgs =>
      AtHead(p, n, Sign(CloseParen), []);
      ParseExprPushes(ops, p, env, i, q, e);
      LastArgPushes(ops, p, env, i, q, n, eq);
      assert eq + [] == eq;
    case Arg(e1, more1) =>
      AtHead(p, n, Sign(Comma), ExprToks(e1) + MoreToks(more1));
      ParseExprPushes(ops, p, env, i, q, e);
      var rest := ArgQueue(ResolvedArgs(ops, env, more)) + [Sign(FunctionEnd)];
      if |q + eq| < MAX_Q {
        ParseArgsPushes(ops, p, env, n + 1, (q + eq) + [Sign(Comma)], e1, more1);
      }
      MoreArgPushes(ops, p, env, i, q, n, n + |MoreToks(more)|, eq, rest);
      assert ArgQueue(ResolvedArgs(ops, env, Arg(e, more))) + [Sign(FunctionEnd)] == eq + ([Sign(Comma)] + rest);
  }
}
