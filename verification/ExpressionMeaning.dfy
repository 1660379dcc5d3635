/** What `expression()` returns on the tokens of an expression. */
module ExpressionMeaning {
  import opened Tokens
  import opened Programs
  import opened Expression
  import opened ExpressionTree
  import opened ExpressionParsing
  import opened ExpressionSolving

  lemma ResolvedLength(ops: Ops, env: Env, e: Expr)
    ensures |ExprQueue(Resolved(ops, env, e))| == |ExprQueue(e)|
    decreases e
  {
    match e
    case One(t) => ResolvedTermLength(ops, env, t);
    case Bin(t, _, rest) => ResolvedTermLength(ops, env, t); ResolvedLength(ops, env, rest);
  }

  lemma ResolvedTermLength(ops: Ops, env: Env, t: Term)
    ensures |TermQueue(ResolvedTerm(ops, env, t))| == |TermQueue(t)|
    decreases t
  {
    match t
    case Atom(_, _) =>
    case Un(_, t1) => ResolvedTermLength(ops, env, t1);
    case Paren(e) => ResolvedLength(ops, env, e);
    case Call(_, args) =>
      if args.Arg? {
        ResolvedLength(ops, env, args.e);
        ResolvedMoreLength(ops, env, args.more);
      }
  }

  lemma ResolvedMoreLength(ops: Ops, env: Env, a: Arguments)
    ensures |MoreQueue(ResolvedArgs(ops, env, a))| == |MoreQueue(a)|
    decreases a
  {
    if a.Arg? {
      ResolvedLength(ops, env, a.e);
      ResolvedMoreLength(ops, env, a.more);
    }
  }

  lemma SolvesWhole(ops: Ops, e: Expr, env: Env)
    ensures var v := Eval(ops, e, env);
            var s := Solve(ops, ExprQueue(e), "", env);
            if v.value.None? then s.status == Err && s.env == v.env
            else s == Solved(Ok, [], v.value.value.text, v.env)
  {
    hide Solve;
    var v := Eval(ops, e, env);
    var token: string;
    assert [] + ExprQueue(e) == ExprQueue(e);
    match e {
      case One(t) =>
        token := SolvesTerm(ops, [], t, "", env);
        if v.value.Some? { PassEnds(ops, [], v.value.value, token, v.env); }
      case Bin(t, op, rest) =>
        var pre := [] + TermQueue(t) + [Sign(Binary(op))];
        assert ExprQueue(e) == pre + ExprQueue(rest);
        token := SolvesExpr(ops, pre, rest, "", env);
        var r := Eval(ops, rest, env);
        if r.value.Some? {
          token := SolvesLeft(ops, [], t, op, r.value.value, token, r.env);
          if v.value.Some? {
            PassEnds(ops, if t.Un? then [] else Based([]), v.value.value, token, v.env);
          }
        }
    }
  }

  /** On the tokens of an expression with anything but an operator behind them, `expression()`
      reads exactly those tokens and returns the value of the tree, or its failure; it exits the
      process exactly when the queue has no room for the tree. */
  lemma EvaluatesTree(ops: Ops, p: seq<Token>, env: Env, i: nat, e: Expr)
    requires At(p, i, ExprToks(e)) && !IsOperator(RawAt(p, i + |ExprToks(e)|).kind)
    ensures var r := Evaluate(ops, p, env, i);
            var v := Eval(ops, Resolved(ops, env, e), env);
            var n := i + |ExprToks(e)|;
            if |ExprQueue(e)| > MAX_Q then r.status == Fatal && r.env == env
            else if v.value.None? then r == Outcome(Err, n, "", v.env)
            else r == Outcome(Ok, n, v.value.value.text, v.env)
  {
    hide ParseExpr, Solve;
    ResolvedLength(ops, env, e);
    ParseExprPushes(ops, p, env, i, [], e);
    var q := ExprQueue(Resolved(ops, env, e));
    assert [] + q == q;
    SolvesWhole(ops, Resolved(ops, env, e), env);
  }

  /** An expression ends the process exactly when it has more than 500 tokens on the queue. */
  lemma OverflowsAt(ops: Ops, p: seq<Token>, env: Env, i: nat, e: Expr)
    requires At(p, i, ExprToks(e)) && !IsOperator(RawAt(p, i + |ExprToks(e)|).kind)
    ensures Evaluate(ops, p, env, i).status == Fatal <==> |ExprQueue(e)| > 500
  {
    hide Evaluate, Eval;
    EvaluatesTree(ops, p, env, i, e);
  }

  // ---------------------------------------------------------------- the plain reading

  /** The plain reading: an operand takes all its signs before any operator is applied. */
  function Plain(ops: Ops, e: Expr, env: Env): Valued
    decreases e
  {
    match e
    case One(t) => PlainTerm(ops, t, env)
    case Bin(t, op, rest) =>
      var r := Plain(ops, rest, env);
      if r.value.None? then r else Combine(ops, op, r.value.value, PlainTerm(ops, t, r.env))
  }

  function PlainTerm(ops: Ops, t: Term, env: Env): Valued
    decreases t
  {
    match t
    case Atom(k, s) => Valued(Some(TypedText(k, s)), env)
    case Un(u, t1) => Prefix(ops, u, PlainTerm(ops, t1, env))
    case Paren(e) => Plain(ops, e, env)
    case Call(f, args) => Apply(ops, f, PlainArgs(ops, args, env))
  }

  function PlainArgs(ops: Ops, a: Arguments, env: Env): (r: Slots)
    ensures r.ok ==> |r.texts| <= 3
    decreases a
  {
    match a
    case NoArgs => Slots(true, [], env)
    case Arg(e, more) =>
      var r := PlainArgs(ops, more, env);
      if !r.ok then r else
      var v := Plain(ops, e, r.env);
      if v.value.None? || |r.texts| > 2 then Slots(false, [], v.env)
      else Slots(true, r.texts + [v.value.value.text], v.env)
  }

  /** All signs but the innermost are plus signs. */
  predicate SignsHarmless(t: Term) {
    t.Un? && t.t.Un? ==> t.prefix == UnaryPlus && SignsHarmless(t.t)
  }

  /** Every operand with an operator behind it has harmless signs. */
  predicate Readable(e: Expr) {
    match e
    case One(t) => ReadableTerm(t)
    case Bin(t, _, rest) => SignsHarmless(t) && ReadableTerm(t) && Readable(rest)
  }

  predicate ReadableTerm(t: Term) {
    match t
    case Atom(_, _) => true
    case Un(_, t1) => ReadableTerm(t1)
    case Paren(e) => Readable(e)
    case Call(_, args) => ReadableArgs(args)
  }

  predicate ReadableArgs(a: Arguments) {
    match a
    case NoArgs => true
    case Arg(e, more) => Readable(e) && ReadableArgs(more)
  }

  lemma {:induction false} ReadsPlainly(ops: Ops, e: Expr, env: Env)
    requires Readable(e)
    ensures Eval(ops, e, env) == Plain(ops, e, env)
    decreases e, 0
  {
    match e
    case One(t) => ReadsTermPlainly(ops, t, env);
    case Bin(t, op, rest) =>
      ReadsPlainly(ops, rest, env);
      var r := Eval(ops, rest, env);
      if r.value.Some? { ReadsLeftPlainly(ops, t, op, r.value.value, r.env); }
  }

  lemma {:induction false} ReadsLeftPlainly(ops: Ops, t: Term, op: BinaryOp, right: TypedText, env: Env)
    requires SignsHarmless(t) && ReadableTerm(t)
    ensures EvalLeft(ops, t, op, right, env) == Combine(ops, op, right, PlainTerm(ops, t, env))
    decreases t, 1
  {
    if t.Un? && t.t.Un? {
      ReadsLeftPlainly(ops, t.t, op, right, env);
    } else {
      ReadsTermPlainly(ops, t, env);
    }
  }

  lemma {:induction false} ReadsTermPlainly(ops: Ops, t: Term, env: Env)
    requires ReadableTerm(t)
    ensures EvalTerm(ops, t, env) == PlainTerm(ops, t, env)
    decreases t, 0
  {
    match t
    case Atom(_, _) =>
    case Un(_, t1) => ReadsTermPlainly(ops, t1, env);
    case Paren(e) => ReadsPlainly(ops, e, env);
    case Call(_, args) => ReadsArgsPlainly(ops, args, env);
  }

  lemma {:induction false} ReadsArgsPlainly(ops: Ops, a: Arguments, env: Env)
    requires ReadableArgs(a)
    ensures EvalArgs(ops, a, env) == PlainArgs(ops, a, env)
    decreases a, 0
  {
    if a.Arg? {
      ReadsArgsPlainly(ops, a.more, env);
      ReadsPlainly(ops, a.e, EvalArgs(ops, a.more, env).env);
    }
  }

  // ---------------------------------------------------------------- and nothing less will do

  /** No function is given more than three arguments. */
  predicate FewArgs(e: Expr) {
    match e
    case One(t) => FewArgsTerm(t)
    case Bin(t, _, rest) => FewArgsTerm(t) && FewArgs(rest)
  }

  predicate FewArgsTerm(t: Term) {
    match t
    case Atom(_, _) => true
    case Un(_, t1) => FewArgsTerm(t1)
    case Paren(e) => FewArgs(e)
    case Call(_, args) => Count(args) <= 3 && FewArgsAll(args)
  }

  predicate FewArgsAll(a: Arguments) {
    match a
    case NoArgs => true
    case Arg(e, more) => FewArgs(e) && FewArgsAll(more)
  }

  function Count(a: Arguments): nat {
    match a
    case NoArgs => 0
    case Arg(_, more) => 1 + Count(more)
  }

  function Long(n: nat): (s: string)
    ensures |s| == n
  {
    seq(n, _ => 'x')
  }

  /** Operators that never fail and grow with every argument: only lengths matter. */
  function Lengths(): Ops {
    Ops((s: string, e: Env) => s,
        (op: BinaryOp, r: string, l: string) => Some(Long(|r| + |l| + 1)),
        (u: UnaryOp, s: string) => Some(Long(2 * |s| + 1)),
        (f: nat, n: nat, a: string, b: string, c: string, e: Env) => Returned(NumberResult, Long(|a| + |b| + |c|), e))
  }

  /** The length of a value under `Lengths`. */
  function Size(x: Valued): nat { if x.value.None? then 0 else |x.value.value.text| }

  lemma CombineSize(op: BinaryOp, right: TypedText, left: Valued)
    requires left.value.Some?
    ensures var x := Combine(Lengths(), op, right, left);
            x.value.Some? && x.env == left.env && Size(x) == |right.text| + Size(left) + 1
  {
  }

  lemma PrefixSize(u: UnaryOp, x: Valued)
    requires x.value.Some?
    ensures var y := Prefix(Lengths(), u, x);
            y.value.Some? && y.env == x.env && Size(y) == if u == UnaryPlus then Size(x) else 2 * Size(x) + 1
  {
  }

  function Total(s: seq<string>): nat {
    |Slot(s, 0)| + |Slot(s, 1)| + |Slot(s, 2)|
  }

  lemma ApplySize(f: nat, s: Slots)
    requires s.ok
    ensures var x := Apply(Lengths(), f, s); x.value.Some? && x.env == s.env && Size(x) == Total(s.texts)
  {
  }

  /** Both values exist and leave the variables alone; the first is at least as long, and longer if `more`. */
  ghost predicate Outgrowing(x: Valued, y: Valued, extra: nat, env: Env, more: bool) {
    x.value.Some? && y.value.Some? && x.env == env && y.env == env
    && Size(x) >= Size(y) + extra && (more ==> Size(x) > Size(y) + extra)
  }

  lemma {:induction false} Outgrows(e: Expr, env: Env)
    requires FewArgs(e)
    ensures Outgrowing(Eval(Lengths(), e, env), Plain(Lengths(), e, env), 0, env, !Readable(e))
    decreases e, 0
  {
    hide Lengths, Combine;
    match e
    case One(t) => OutgrowsTerm(t, env);
    case Bin(t, op, rest) =>
      Outgrows(rest, env);
      var r, r1 := Eval(Lengths(), rest, env), Plain(Lengths(), rest, env);
      OutgrowsLeft(t, op, r.value.value, env);
      OutgrowsTerm(t, env);
      CombineSize(op, r1.value.value, PlainTerm(Lengths(), t, env));
  }

  lemma {:induction false} OutgrowsLeft(t: Term, op: BinaryOp, right: TypedText, env: Env)
    requires FewArgsTerm(t)
    ensures Outgrowing(EvalLeft(Lengths(), t, op, right, env), PlainTerm(Lengths(), t, env), |right.text| + 1, env,
                       !(SignsHarmless(t) && ReadableTerm(t)))
    decreases t, 1
  {
    hide Lengths, Combine, Prefix;
    OutgrowsTerm(t, env);
    if t.Un? && t.t.Un? {
      OutgrowsLeft(t.t, op, right, env);
      PrefixSize(t.prefix, EvalLeft(Lengths(), t.t, op, right, env));
      OutgrowsTerm(t.t, env);
      PrefixSize(t.prefix, PlainTerm(Lengths(), t.t, env));
    } else {
      CombineSize(op, right, EvalTerm(Lengths(), t, env));
    }
  }

  lemma {:induction false} OutgrowsTerm(t: Term, env: Env)
    requires FewArgsTerm(t)
    ensures Outgrowing(EvalTerm(Lengths(), t, env), PlainTerm(Lengths(), t, env), 0, env, !ReadableTerm(t))
    decreases t, 0
  {
    hide Lengths, Prefix, Apply;
    match t
    case Atom(_, _) =>
    case Un(u, t1) =>
      OutgrowsTerm(t1, env);
      PrefixSize(u, EvalTerm(Lengths(), t1, env));
      PrefixSize(u, PlainTerm(Lengths(), t1, env));
    case Paren(e) => Outgrows(e, env);
    case Call(f, args) =>
      OutgrowsArgs(args, env);
      ApplySize(f, EvalArgs(Lengths(), args, env));
      ApplySize(f, PlainArgs(Lengths(), args, env));
  }

  lemma {:induction false} OutgrowsArgs(a: Arguments, env: Env)
    requires Count(a) <= 3 && FewArgsAll(a)
    ensures var x, y := EvalArgs(Lengths(), a, env), PlainArgs(Lengths(), a, env);
            x.ok && y.ok && x.env == env && y.env == env && |x.texts| == Count(a) && |y.texts| == Count(a)
            && Total(x.texts) >= Total(y.texts) && (!ReadableArgs(a) ==> Total(x.texts) > Total(y.texts))
    decreases a, 0
  {
    hide Lengths;
    if a.Arg? {
      OutgrowsArgs(a.more, env);
      Outgrows(a.e, env);
      var x, y := EvalArgs(Lengths(), a.more, env), PlainArgs(Lengths(), a.more, env);
      TotalGrows(x.texts, Eval(Lengths(), a.e, env).value.value.text);
      TotalGrows(y.texts, Plain(Lengths(), a.e, env).value.value.text);
    }
  }

  lemma TotalGrows(s: seq<string>, t: string)
    requires |s| <= 2
    ensures Total(s + [t]) == Total(s) + |t|
  {
  }

  /** The solver gives the plain reading, whatever the operators, exactly to the expressions whose
      non-final operands carry no sign in front of their innermost one but plus signs. */
  lemma PlainReadingExactly(e: Expr)
    requires FewArgs(e)
    ensures Readable(e) <==> forall ops: Ops, env: Env :: Eval(ops, e, env) == Plain(ops, e, env)
  {
    if Readable(e) {
      forall ops: Ops, env: Env ensures Eval(ops, e, env) == Plain(ops, e, env) {
        ReadsPlainly(ops, e, env);
      }
    } else {
      Outgrows(e, map[]);
      assert Eval(Lengths(), e, map[]) != Plain(Lengths(), e, map[]);
    }
  }
}
